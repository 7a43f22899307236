// What a migration's class means: the most severe thing any of its statements does, wherever
// in the file and however deep in DO blocks it stands, judged against what really exists.
module ClassifyMeaning {
  import opened Text
  import opened LastEvent
  import opened Lists
  import opened Classify

  // ----------------------------------------------------------- the file's class

  /** `kind` is the strongest class among the decisions, and `Additive` when there are none. */
  ghost predicate MostSevere(kind: Class, decisions: seq<Decision>) {
    && (kind == Additive || exists d :: d in decisions && d.kind == kind)
    && (forall d :: d in decisions ==> Rank(kind) <= Rank(d.kind))
  }

  function KindOf(decisions: seq<Decision>): Class {
    var sorted := Sorted(NotAdditive(decisions));
    if sorted == [] then Additive else sorted[0].kind
  }

  lemma {:induction false} OfKindHas(decisions: seq<Decision>, kind: Class, d: Decision)
    ensures d in OfKind(decisions, kind) <==> d in decisions && d.kind == kind
  {
    if decisions != [] {
      OfKindHas(decisions[1..], kind, d);
    }
  }

  lemma {:induction false} NotAdditiveHas(decisions: seq<Decision>, d: Decision)
    ensures d in NotAdditive(decisions) <==> d in decisions && d.kind != Additive
  {
    if decisions != [] {
      NotAdditiveHas(decisions[1..], d);
    }
  }

  predicate InOrder(decisions: seq<Decision>) {
    forall i, j :: 0 <= i < j < |decisions| ==> Rank(decisions[i].kind) <= Rank(decisions[j].kind)
  }

  lemma InOrderSum(x: seq<Decision>, y: seq<Decision>)
    requires InOrder(x) && InOrder(y) && forall d, e :: d in x && e in y ==> Rank(d.kind) <= Rank(e.kind)
    ensures InOrder(x + y)
  {
    forall i, j | 0 <= i < j < |x + y|
      ensures Rank((x + y)[i].kind) <= Rank((x + y)[j].kind)
    {
      if i < |x| <= j {
        assert (x + y)[i] in x && (x + y)[j] in y;
      }
    }
  }

  lemma InOrderSix(a: seq<Decision>, b: seq<Decision>, c: seq<Decision>, d: seq<Decision>, e: seq<Decision>,
                   f: seq<Decision>)
    requires Ranked(a, 0) && Ranked(b, 1) && Ranked(c, 2) && Ranked(d, 3) && Ranked(e, 4) && Ranked(f, 5)
    ensures InOrder(a + b + c + d + e + f)
  {
    InOrderSum(a, b);
    InOrderSum(a + b, c);
    InOrderSum(a + b + c, d);
    InOrderSum(a + b + c + d, e);
    InOrderSum(a + b + c + d + e, f);
  }

  predicate Ranked(decisions: seq<Decision>, rank: nat) {
    forall d :: d in decisions ==> Rank(d.kind) == rank
  }

  lemma OfKindRanked(decisions: seq<Decision>, kind: Class)
    ensures Ranked(OfKind(decisions, kind), Rank(kind))
  {
    forall d | d in OfKind(decisions, kind)
      ensures d.kind == kind
    {
      OfKindHas(decisions, kind, d);
    }
  }

  lemma SortedInOrder(decisions: seq<Decision>)
    ensures InOrder(Sorted(decisions))
  {
    OfKindRanked(decisions, Destructive);
    OfKindRanked(decisions, Unclassified);
    OfKindRanked(decisions, TouchesExisting);
    OfKindRanked(decisions, Privilege);
    OfKindRanked(decisions, ReplacesRoutine);
    OfKindRanked(decisions, Additive);
    InOrderSix(OfKind(decisions, Destructive), OfKind(decisions, Unclassified), OfKind(decisions, TouchesExisting),
               OfKind(decisions, Privilege), OfKind(decisions, ReplacesRoutine), OfKind(decisions, Additive));
  }

  lemma SortedHas(decisions: seq<Decision>, d: Decision)
    ensures d in Sorted(decisions) <==> d in decisions
  {
    OfKindHas(decisions, d.kind, d);
    forall kind: Class
      ensures d in OfKind(decisions, kind) ==> d in decisions
    {
      OfKindHas(decisions, kind, d);
    }
  }

  lemma {:induction false} OfKindCounts(decisions: seq<Decision>, kind: Class, d: Decision)
    ensures multiset(OfKind(decisions, kind))[d] == if d.kind == kind then multiset(decisions)[d] else 0
  {
    if decisions != [] {
      OfKindCounts(decisions[1..], kind, d);
      assert decisions == [decisions[0]] + decisions[1..];
    }
  }

  lemma {:induction false} OfKindOfSum(x: seq<Decision>, y: seq<Decision>, kind: Class)
    ensures OfKind(x + y, kind) == OfKind(x, kind) + OfKind(y, kind)
  {
    if x == [] {
      assert x + y == y;
    } else {
      assert (x + y)[0] == x[0] && (x + y)[1..] == x[1..] + y;
      OfKindOfSum(x[1..], y, kind);
      var head := if x[0].kind == kind then [x[0]] else [];
      Associates(head, OfKind(x[1..], kind), OfKind(y, kind));
    }
  }

  lemma {:induction false} OfKindTwice(decisions: seq<Decision>, kind: Class, other: Class)
    ensures OfKind(OfKind(decisions, other), kind) == Only(kind == other, OfKind(decisions, kind))
  {
    if decisions != [] {
      OfKindTwice(decisions[1..], kind, other);
      var head := if decisions[0].kind == other then [decisions[0]] else [];
      OfKindOfSum(head, OfKind(decisions[1..], other), kind);
      assert head != [] ==> head[1..] == [];
    }
  }

  lemma OfKindOfSix(a: seq<Decision>, b: seq<Decision>, c: seq<Decision>, d: seq<Decision>, e: seq<Decision>,
                    f: seq<Decision>, kind: Class)
    ensures OfKind(a + b + c + d + e + f, kind)
         == OfKind(a, kind) + OfKind(b, kind) + OfKind(c, kind) + OfKind(d, kind) + OfKind(e, kind) + OfKind(f, kind)
  {
    OfKindOfSum(a + b + c + d + e, f, kind);
    OfKindOfSum(a + b + c + d, e, kind);
    OfKindOfSum(a + b + c, d, kind);
    OfKindOfSum(a + b, c, kind);
    OfKindOfSum(a, b, kind);
  }

  function Only(same: bool, decisions: seq<Decision>): seq<Decision> {
    if same then decisions else []
  }

  lemma OneOfSix(kind: Class, decisions: seq<Decision>)
    ensures Only(kind == Destructive, decisions) + Only(kind == Unclassified, decisions)
            + Only(kind == TouchesExisting, decisions) + Only(kind == Privilege, decisions)
            + Only(kind == ReplacesRoutine, decisions) + Only(kind == Additive, decisions)
         == decisions
  {
  }

  lemma SortedKeepsKind(decisions: seq<Decision>, kind: Class)
    ensures OfKind(Sorted(decisions), kind) == OfKind(decisions, kind)
  {
    OneOfSix(kind, OfKind(decisions, kind));
    OfKindOfSix(OfKind(decisions, Destructive), OfKind(decisions, Unclassified), OfKind(decisions, TouchesExisting),
                OfKind(decisions, Privilege), OfKind(decisions, ReplacesRoutine), OfKind(decisions, Additive), kind);
    OfKindTwice(decisions, kind, Destructive);
    OfKindTwice(decisions, kind, Unclassified);
    OfKindTwice(decisions, kind, TouchesExisting);
    OfKindTwice(decisions, kind, Privilege);
    OfKindTwice(decisions, kind, ReplacesRoutine);
    OfKindTwice(decisions, kind, Additive);
  }

  lemma SortedCounts(decisions: seq<Decision>, x: Decision)
    ensures multiset(Sorted(decisions))[x] == multiset(decisions)[x]
  {
    OfKindCounts(decisions, Destructive, x);
    OfKindCounts(decisions, Unclassified, x);
    OfKindCounts(decisions, TouchesExisting, x);
    OfKindCounts(decisions, Privilege, x);
    OfKindCounts(decisions, ReplacesRoutine, x);
    OfKindCounts(decisions, Additive, x);
  }

  /**
   * The printed decisions are the file's, strongest first: a permutation, in severity order,
   * in which decisions of one class keep the order of their statements.
   */
  lemma SortedIsStablePermutation(decisions: seq<Decision>)
    ensures multiset(Sorted(decisions)) == multiset(decisions)
    ensures InOrder(Sorted(decisions))
    ensures forall kind: Class :: OfKind(Sorted(decisions), kind) == OfKind(decisions, kind)
  {
    SortedInOrder(decisions);
    forall x: Decision
      ensures multiset(Sorted(decisions))[x] == multiset(decisions)[x]
    {
      SortedCounts(decisions, x);
    }
    forall kind: Class
      ensures OfKind(Sorted(decisions), kind) == OfKind(decisions, kind)
    {
      SortedKeepsKind(decisions, kind);
    }
  }

  /** A file's class is exactly the most severe decision over all its statements. */
  lemma KindIsMostSevere(decisions: seq<Decision>)
    ensures MostSevere(KindOf(decisions), decisions)
  {
    var kept := NotAdditive(decisions);
    var sorted := Sorted(kept);
    SortedInOrder(kept);
    if sorted != [] {
      assert sorted[0] in sorted;
      SortedHas(kept, sorted[0]);
      NotAdditiveHas(decisions, sorted[0]);
    }
    forall d | d in decisions
      ensures Rank(KindOf(decisions)) <= Rank(d.kind)
    {
      NotAdditiveHas(decisions, d);
      SortedHas(kept, d);
      if d.kind != Additive {
        var i :| 0 <= i < |sorted| && sorted[i] == d;
      }
    }
  }

  lemma MostSevereIsUnique(x: Class, y: Class, decisions: seq<Decision>)
    requires MostSevere(x, decisions) && MostSevere(y, decisions)
    ensures x == y
  {
  }

  lemma {:induction false} DecideAllAt(statements: seq<Stmt>, c: Context, depth: nat, i: nat)
    requires i < |statements|
    ensures DecideAll(statements, c, depth)[i] == Decide(statements[i], c, depth)
  {
    if i > 0 {
      DecideAllAt(statements[1..], c, depth, i - 1);
    }
  }

  lemma DecideAllHas(statements: seq<Stmt>, c: Context, depth: nat, d: Decision)
    ensures d in DecideAll(statements, c, depth) <==> exists s :: s in statements && Decide(s, c, depth) == d
  {
    var all := DecideAll(statements, c, depth);
    if i :| 0 <= i < |all| && all[i] == d {
      DecideAllAt(statements, c, depth, i);
      assert statements[i] in statements;
    }
    if s :| s in statements && Decide(s, c, depth) == d {
      var i :| 0 <= i < |statements| && statements[i] == s;
      DecideAllAt(statements, c, depth, i);
    }
  }

  /** The routines a file is said to replace are those its decisions name, each once. */
  lemma {:induction false} RoutinesReplacedHas(list: seq<string>, decisions: seq<Decision>, name: string)
    requires EachOnce(list)
    ensures EachOnce(RoutinesReplaced(list, decisions))
    ensures name in RoutinesReplaced(list, decisions)
       <==> name in list
            || (name != "" && exists d :: d in decisions && d.kind == ReplacesRoutine && d.routine == Some(name))
    decreases |decisions|
  {
    if decisions != [] {
      var d := decisions[0];
      var more := if d.kind == ReplacesRoutine && d.routine.Some? then Added(list, d.routine.value) else list;
      assert forall other :: other in decisions <==> other == d || other in decisions[1..];
      RoutinesReplacedHas(more, decisions[1..], name);
    }
  }

  lemma {:induction false} ReaddedHas(statements: seq<Stmt>, pair: (string, string))
    ensures pair in Readded(statements) <==> exists s :: s in statements && pair in AddedBy(s)
  {
    if statements != [] {
      ReaddedHas(statements[1..], pair);
    }
  }

  /** The order and the repetition of a file's statements do not change its class. */
  lemma OrderDoesNotMatter(directory: seq<MigrationFile>, x: MigrationFile, y: MigrationFile, appliedOn: int)
    requires forall s :: s in x.statements <==> s in y.statements
    ensures KindOf(FileDecisions(directory, x, appliedOn)) == KindOf(FileDecisions(directory, y, appliedOn))
  {
    forall pair: (string, string)
      ensures pair in Readded(x.statements) <==> pair in Readded(y.statements)
    {
      ReaddedHas(x.statements, pair);
      ReaddedHas(y.statements, pair);
    }
    assert Readded(x.statements) == Readded(y.statements);
    var c := Context(ObjectsAt(directory, appliedOn), Readded(x.statements));
    var ds, es := DecideAll(x.statements, c, 0), DecideAll(y.statements, c, 0);
    forall d
      ensures d in ds <==> d in es
    {
      DecideAllHas(x.statements, c, 0, d);
      DecideAllHas(y.statements, c, 0, d);
    }
    KindIsMostSevere(ds);
    KindIsMostSevere(es);
    MostSevereIsUnique(KindOf(ds), KindOf(es), ds);
  }

  lemma {:induction false} ReaddedOfSum(x: seq<Stmt>, y: seq<Stmt>)
    ensures Readded(x + y) == Readded(x) + Readded(y)
  {
    if x == [] {
      assert x + y == y;
    } else {
      assert (x + y)[1..] == x[1..] + y;
      ReaddedOfSum(x[1..], y);
    }
  }

  /** `y` is `x` with statements added. */
  function Appended(x: MigrationFile, more: seq<Stmt>): MigrationFile {
    x.(statements := x.statements + more)
  }

  function ContextOfFile(directory: seq<MigrationFile>, x: MigrationFile, appliedOn: int): Context {
    Context(ObjectsAt(directory, appliedOn), Readded(x.statements))
  }

  /** Constraints added elsewhere can excuse what was destructive, and change nothing else. */
  ghost predicate OnlyExcused(was: Class, now: Class) {
    && (was == Unclassified <==> now == Unclassified)
    && (was != Destructive ==> now == was)
  }

  lemma SameRank(x: Class, y: Class)
    ensures Rank(x) == Rank(y) ==> x == y
  {
  }

  lemma WorstOfSameKinds(ds: seq<Decision>, es: seq<Decision>)
    requires ds != [] && |ds| == |es| && forall i :: 0 <= i < |ds| ==> ds[i].kind == es[i].kind
    ensures Worst(ds).kind == Worst(es).kind
  {
    var i :| 0 <= i < |ds| && ds[i] == Worst(ds);
    var j :| 0 <= j < |es| && es[j] == Worst(es);
    assert es[i] in es && ds[j] in ds;
    SameRank(Worst(ds).kind, Worst(es).kind);
  }

  /** The class of a DO block whose statements were decided so. */
  function BlockKind(decisions: seq<Decision>): Class
    requires decisions != []
  {
    if exists i :: 0 <= i < |decisions| && decisions[i].kind == Unclassified then Unclassified
    else Worst(decisions).kind
  }

  lemma ExcusedKinds(ds: seq<Decision>, es: seq<Decision>)
    requires ds != [] && |ds| == |es| && forall i :: 0 <= i < |ds| ==> OnlyExcused(ds[i].kind, es[i].kind)
    ensures OnlyExcused(BlockKind(ds), BlockKind(es))
  {
    if i :| 0 <= i < |ds| && ds[i].kind == Unclassified {
      assert es[i].kind == Unclassified;
    } else if i :| 0 <= i < |ds| && ds[i].kind == Destructive {
      assert ds[i] in ds;
    } else {
      WorstOfSameKinds(ds, es);
    }
  }

  lemma ExcusedBlock(s: Stmt, c: Context, d: Context, depth: nat)
    requires s.DoBlock? && depth <= 2 && s.body != []
    requires forall i :: 0 <= i < |s.body| ==>
      OnlyExcused(Decide(s.body[i], c, depth + 1).kind, Decide(s.body[i], d, depth + 1).kind)
    ensures OnlyExcused(Decide(s, c, depth).kind, Decide(s, d, depth).kind)
  {
    var ds, es := DecideAll(s.body, c, depth + 1), DecideAll(s.body, d, depth + 1);
    forall i | 0 <= i < |s.body|
      ensures OnlyExcused(ds[i].kind, es[i].kind)
    {
      DecideAllAt(s.body, c, depth + 1, i);
      DecideAllAt(s.body, d, depth + 1, i);
    }
    ExcusedKinds(ds, es);
    assert Decide(s, c, depth).kind == BlockKind(ds);
    assert Decide(s, d, depth).kind == BlockKind(es);
  }

  lemma {:induction false} MoreReaddedExcuses(s: Stmt, c: Context, d: Context, depth: nat)
    requires c.objects == d.objects && c.readded <= d.readded
    ensures OnlyExcused(Decide(s, c, depth).kind, Decide(s, d, depth).kind)
    decreases s
  {
    if s.DoBlock? && depth <= 2 && s.body != [] {
      forall i | 0 <= i < |s.body|
        ensures OnlyExcused(Decide(s.body[i], c, depth + 1).kind, Decide(s.body[i], d, depth + 1).kind)
      {
        MoreReaddedExcuses(s.body[i], c, d, depth + 1);
      }
      ExcusedBlock(s, c, d, depth);
    }
  }

  /** Some top-level statement is destructive. */
  ghost predicate Destroys(statements: seq<Stmt>, c: Context) {
    exists s :: s in statements && Decide(s, c, 0).kind == Destructive
  }

  lemma DestroysIffDestructive(statements: seq<Stmt>, c: Context)
    ensures Destroys(statements, c) <==> KindOf(DecideAll(statements, c, 0)) == Destructive
  {
    if Destroys(statements, c) {
      var s :| s in statements && Decide(s, c, 0).kind == Destructive;
      NoWeakerThan(statements, c, s);
    }
    if KindOf(DecideAll(statements, c, 0)) == Destructive {
      var s := WorstStatement(statements, c);
    }
  }

  lemma KeepsItsKind(x: seq<Stmt>, c: Context, d: Context, s: Stmt)
    requires c.objects == d.objects && c.readded <= d.readded && s in x && !Destroys(x, c)
    ensures Decide(s, d, 0).kind == Decide(s, c, 0).kind
  {
    MoreReaddedExcuses(s, c, d, 0);
  }

  lemma UndestroyedNeverFalls(x: seq<Stmt>, more: seq<Stmt>, c: Context, d: Context)
    requires c.objects == d.objects && c.readded <= d.readded && !Destroys(x, c)
    ensures Rank(KindOf(DecideAll(x + more, d, 0))) <= Rank(KindOf(DecideAll(x, c, 0)))
  {
    if KindOf(DecideAll(x, c, 0)) != Additive {
      var s := WorstStatement(x, c);
      KeepsItsKind(x, c, d, s);
      assert s in x + more;
      NoWeakerThan(x + more, d, s);
    }
  }

  /** A statement that makes the file what it is. */
  lemma WorstStatement(statements: seq<Stmt>, c: Context) returns (s: Stmt)
    requires KindOf(DecideAll(statements, c, 0)) != Additive
    ensures s in statements && Decide(s, c, 0).kind == KindOf(DecideAll(statements, c, 0))
  {
    var decisions := DecideAll(statements, c, 0);
    KindIsMostSevere(decisions);
    var worst :| worst in decisions && worst.kind == KindOf(decisions);
    DecideAllHas(statements, c, 0, worst);
    s :| s in statements && Decide(s, c, 0) == worst;
  }

  lemma NoWeakerThan(statements: seq<Stmt>, c: Context, s: Stmt)
    requires s in statements
    ensures Rank(KindOf(DecideAll(statements, c, 0))) <= Rank(Decide(s, c, 0).kind)
  {
    KindIsMostSevere(DecideAll(statements, c, 0));
    DecideAllHas(statements, c, 0, Decide(s, c, 0));
  }

  /** The drops of this ALTER TABLE are all of constraints in `readded`. */
  predicate Excused(leaf: Stmt, readded: set<(string, string)>) {
    && leaf.AlterTable? && !leaf.dropsColumn && leaf.dropped != []
    && forall name :: name in leaf.dropped ==> (leaf.table, name) in readded
  }

  /** Whatever is destructive in `s`, however deep, drops nothing but constraints in `readded`. */
  ghost predicate ExcusedThroughout(s: Stmt, c: Context, readded: set<(string, string)>) {
    forall leaf :: leaf in Leaves(s) && Judge(leaf, c).kind == Destructive ==> Excused(leaf, readded)
  }

  lemma LeafStaysDestructive(leaf: Stmt, c: Context, d: Context)
    requires !leaf.DoBlock? && c.objects == d.objects && c.readded <= d.readded
    ensures Judge(leaf, d).kind == Destructive
       <==> Judge(leaf, c).kind == Destructive && !Excused(leaf, d.readded)
  {
  }

  lemma StaysDestructive(s: Stmt, c: Context, d: Context)
    requires c.objects == d.objects && c.readded <= d.readded
    ensures Decide(s, d, 0).kind == Destructive
       <==> Decide(s, c, 0).kind == Destructive && !ExcusedThroughout(s, c, d.readded)
  {
    MoreReaddedExcuses(s, c, d, 0);
    ClassOfNested(s, c, 0);
    ClassOfNested(s, d, 0);
    forall leaf | leaf in Leaves(s)
      ensures Judge(leaf, d).kind == Destructive
         <==> Judge(leaf, c).kind == Destructive && !Excused(leaf, d.readded)
    {
      LeafStaysDestructive(leaf, c, d);
    }
  }

  /** The constraints in `readded` excuse every statement that is destructive without them. */
  ghost predicate AllExcused(statements: seq<Stmt>, c: Context, readded: set<(string, string)>) {
    forall s :: s in statements && Decide(s, c, 0).kind == Destructive ==> ExcusedThroughout(s, c, readded)
  }

  lemma NothingLeftIffExcused(statements: seq<Stmt>, c: Context, d: Context)
    requires c.objects == d.objects && c.readded <= d.readded
    ensures !Destroys(statements, d) <==> AllExcused(statements, c, d.readded)
  {
    forall s | s in statements
      ensures Decide(s, d, 0).kind == Destructive
         <==> Decide(s, c, 0).kind == Destructive && !ExcusedThroughout(s, c, d.readded)
    {
      StaysDestructive(s, c, d);
    }
  }

  /**
   * Statements added to a file lower its class exactly when the file was destructive, the added ones
   * are not, and all that was destructive in it drops constraints that the longer file adds back.
   */
  lemma AppendingLowersExactly(directory: seq<MigrationFile>, x: MigrationFile, more: seq<Stmt>, appliedOn: int)
    ensures var y := Appended(x, more);
      var c, d := ContextOfFile(directory, x, appliedOn), ContextOfFile(directory, y, appliedOn);
      Rank(KindOf(FileDecisions(directory, y, appliedOn))) > Rank(KindOf(FileDecisions(directory, x, appliedOn)))
      <==> Destroys(x.statements, c) && !Destroys(more, d)
           && AllExcused(x.statements, c, Readded(x.statements) + Readded(more))
  {
    var y := Appended(x, more);
    var c, d := ContextOfFile(directory, x, appliedOn), ContextOfFile(directory, y, appliedOn);
    ReaddedOfSum(x.statements, more);
    DestroysIffDestructive(x.statements, c);
    DestroysIffDestructive(y.statements, d);
    NothingLeftIffExcused(x.statements, c, d);
    assert Destroys(y.statements, d) <==> Destroys(x.statements, d) || Destroys(more, d);
    if !Destroys(x.statements, c) {
      UndestroyedNeverFalls(x.statements, more, c, d);
    }
  }

  /** So statements that add no constraint of their own never lower it. */
  lemma AppendingCannotLower(directory: seq<MigrationFile>, x: MigrationFile, more: seq<Stmt>, appliedOn: int)
    requires Readded(more) <= Readded(x.statements)
    ensures Rank(KindOf(FileDecisions(directory, Appended(x, more), appliedOn)))
         <= Rank(KindOf(FileDecisions(directory, x, appliedOn)))
  {
    AppendingLowersExactly(directory, x, more, appliedOn);
    var c := ContextOfFile(directory, x, appliedOn);
    assert Readded(x.statements) + Readded(more) == c.readded;
    NothingLeftIffExcused(x.statements, c, c);
  }

  /** One that adds a dropped constraint back does: it turns a destructive file into one that touches what exists. */
  lemma AddingBackLowers(directory: seq<MigrationFile>, x: MigrationFile, table: string, constraint: string,
                         appliedOn: int)
    requires table in ObjectsAt(directory, appliedOn).tables
    requires x.statements == [AlterTable(table, false, false, true, [constraint], [])]
    ensures KindOf(FileDecisions(directory, x, appliedOn)) == Destructive
    ensures var readd := AlterTable(table, false, false, false, [], [constraint]);
      KindOf(FileDecisions(directory, Appended(x, [readd]), appliedOn)) == TouchesExisting
  {
    var drop, readd := x.statements[0], AlterTable(table, false, false, false, [], [constraint]);
    var o, both := ObjectsAt(directory, appliedOn), [drop, readd];
    ReaddedHas([drop], (table, constraint));
    ReaddedHas(both, (table, constraint));
    assert readd in both && (table, constraint) in AddedBy(readd);
    DroppedConstraint(Context(o, Readded([drop])), table, constraint);
    DroppedConstraint(Context(o, Readded(both)), table, constraint);
    AllOfKind([drop], Context(o, Readded([drop])), Destructive);
    AllOfKind(both, Context(o, Readded(both)), TouchesExisting);
    assert x.statements + [readd] == both;
  }

  lemma DroppedConstraint(c: Context, table: string, constraint: string)
    ensures Decide(AlterTable(table, false, false, true, [constraint], []), c, 0).kind
         == if (table, constraint) in c.readded then TouchesExisting else Destructive
  {
    var dropped := [constraint];
    assert dropped[0] in dropped;
  }

  lemma AllOfKind(statements: seq<Stmt>, c: Context, kind: Class)
    requires statements != [] && forall s :: s in statements ==> Decide(s, c, 0).kind == kind
    ensures KindOf(DecideAll(statements, c, 0)) == kind
  {
    var ds := DecideAll(statements, c, 0);
    KindIsMostSevere(ds);
    assert ds[0] in ds;
    forall d | d in ds
      ensures d.kind == kind
    {
      DecideAllHas(statements, c, 0, d);
    }
  }

  // ------------------------------------------------------------------ DO blocks

  /** The statements that are not DO blocks, however deep they stand. */
  function Leaves(s: Stmt): (leaves: seq<Stmt>)
    ensures forall leaf :: leaf in leaves ==> !leaf.DoBlock?
    decreases s, 1
  {
    if s.DoBlock? then LeavesOf(s.body) else [s]
  }

  function LeavesOf(statements: seq<Stmt>): (leaves: seq<Stmt>)
    ensures forall leaf :: leaf in leaves ==> !leaf.DoBlock?
    decreases statements, 0
  {
    if statements == [] then [] else Leaves(statements[0]) + LeavesOf(statements[1..])
  }

  /** No DO block on the way down is empty or nested beyond the bound. */
  predicate Openable(s: Stmt, depth: nat) {
    s.DoBlock? ==> depth <= 2 && s.body != [] && forall i :: 0 <= i < |s.body| ==> Openable(s.body[i], depth + 1)
  }

  predicate Recognised(s: Stmt, c: Context, depth: nat) {
    Openable(s, depth) && forall leaf :: leaf in Leaves(s) ==> Judge(leaf, c).kind != Unclassified
  }

  lemma {:induction false} LeavesOfHas(statements: seq<Stmt>, leaf: Stmt)
    ensures leaf in LeavesOf(statements) <==> exists i :: 0 <= i < |statements| && leaf in Leaves(statements[i])
  {
    if statements != [] {
      LeavesOfHas(statements[1..], leaf);
      if i :| 0 <= i < |statements[1..]| && leaf in Leaves(statements[1..][i]) {
        assert leaf in Leaves(statements[i + 1]);
      }
      if i :| 0 <= i < |statements| && leaf in Leaves(statements[i]) {
        assert i > 0 ==> statements[1..][i - 1] == statements[i];
      }
    }
  }

  /** `kind` is the most severe class among the leaves. */
  ghost predicate WorstLeaf(kind: Class, leaves: seq<Stmt>, c: Context)
    requires forall leaf :: leaf in leaves ==> !leaf.DoBlock?
  {
    && (exists leaf :: leaf in leaves && Judge(leaf, c).kind == kind)
    && (forall leaf :: leaf in leaves ==> Rank(kind) <= Rank(Judge(leaf, c).kind))
  }

  /**
   * A statement's class is the most severe class of its innermost statements when every one is
   * recognised and every DO block on the way can be opened, and `unclassified` otherwise.
   */
  lemma {:induction false} ClassOfNested(s: Stmt, c: Context, depth: nat)
    ensures Recognised(s, c, depth) <==> Decide(s, c, depth).kind != Unclassified
    ensures Recognised(s, c, depth) ==> WorstLeaf(Decide(s, c, depth).kind, Leaves(s), c)
    decreases s
  {
    if !s.DoBlock? {
      assert s in Leaves(s);
    } else if depth <= 2 && s.body != [] {
      forall i | 0 <= i < |s.body|
        ensures Understood(s.body[i], c, depth + 1)
      {
        ClassOfNested(s.body[i], c, depth + 1);
      }
      ClassOfBlock(s, c, depth);
    }
  }

  /** What `ClassOfNested` says of one statement. */
  ghost predicate Understood(s: Stmt, c: Context, depth: nat) {
    && (Recognised(s, c, depth) <==> Decide(s, c, depth).kind != Unclassified)
    && (Recognised(s, c, depth) ==> WorstLeaf(Decide(s, c, depth).kind, Leaves(s), c))
  }

  lemma ClassOfBlock(s: Stmt, c: Context, depth: nat)
    requires s.DoBlock? && depth <= 2 && s.body != []
    requires forall i :: 0 <= i < |s.body| ==> Understood(s.body[i], c, depth + 1)
    ensures Understood(s, c, depth)
  {
    var decisions := DecideAll(s.body, c, depth + 1);
    forall i | 0 <= i < |s.body|
      ensures decisions[i] == Decide(s.body[i], c, depth + 1)
    {
      DecideAllAt(s.body, c, depth + 1, i);
    }
    RecognisedBody(s, c, depth);
    if Recognised(s, c, depth) {
      WorstOfBody(s.body, decisions, c);
    }
  }

  lemma WorstOfBody(body: seq<Stmt>, decisions: seq<Decision>, c: Context)
    requires body != [] && |decisions| == |body|
    requires forall i :: 0 <= i < |body| ==> WorstLeaf(decisions[i].kind, Leaves(body[i]), c)
    ensures WorstLeaf(Worst(decisions).kind, LeavesOf(body), c)
  {
    var worst := Worst(decisions);
    var i :| 0 <= i < |decisions| && decisions[i] == worst;
    var leaf :| leaf in Leaves(body[i]) && Judge(leaf, c).kind == worst.kind;
    LeavesOfHas(body, leaf);
    forall other | other in LeavesOf(body)
      ensures Rank(worst.kind) <= Rank(Judge(other, c).kind)
    {
      LeavesOfHas(body, other);
      var j :| 0 <= j < |body| && other in Leaves(body[j]);
      assert decisions[j] in decisions;
    }
  }

  lemma RecognisedBody(s: Stmt, c: Context, depth: nat)
    requires s.DoBlock? && depth <= 2 && s.body != []
    ensures Recognised(s, c, depth) <==> forall i :: 0 <= i < |s.body| ==> Recognised(s.body[i], c, depth + 1)
  {
    forall leaf
      ensures leaf in Leaves(s) <==> exists i :: 0 <= i < |s.body| && leaf in Leaves(s.body[i])
    {
      LeavesOfHas(s.body, leaf);
    }
  }

  // --------------------------------------------------------------- what exists

  /** What one top-level statement says about a name. */
  function Mention(s: Stmt, pool: Pool, name: string): Effect {
    if Creates(s) == Some((pool, name)) && name != "" then Sets
    else if Drops(s).Some? && Drops(s).value.0 == pool && name in Drops(s).value.1 then Clears
    else Effect.Leaves
  }

  function Mentions(statements: seq<Stmt>, pool: Pool, name: string): seq<Effect> {
    if statements == [] then [] else [Mention(statements[0], pool, name)] + Mentions(statements[1..], pool, name)
  }

  lemma PoolOfWithPool(o: Objects, pool: Pool, list: seq<string>, other: Pool)
    ensures PoolOf(WithPool(o, pool, list), other) == if other == pool then list else PoolOf(o, other)
  {
  }

  lemma StatementMentions(o: Objects, s: Stmt, pool: Pool, name: string)
    requires EachOnce(PoolOf(o, pool))
    ensures EachOnce(PoolOf(AfterStatement(o, s), pool))
    ensures name in PoolOf(AfterStatement(o, s), pool)
        <==> After(Mention(s, pool, name), name in PoolOf(o, pool))
  {
    if Creates(s).Some? {
      CreateMentions(o, s, pool, name);
    } else if Drops(s).Some? {
      DropMentions(o, s, pool, name);
    }
  }

  lemma CreateMentions(o: Objects, s: Stmt, pool: Pool, name: string)
    requires EachOnce(PoolOf(o, pool)) && Creates(s).Some?
    ensures EachOnce(PoolOf(AfterStatement(o, s), pool))
    ensures name in PoolOf(AfterStatement(o, s), pool) <==> After(Mention(s, pool, name), name in PoolOf(o, pool))
  {
    var (p, n) := Creates(s).value;
    AfterCreate(o, s, pool);
    MentionOfCreate(s, p, n, pool, name);
    AddedHas(PoolOf(o, p), n, name);
  }

  lemma MentionOfCreate(s: Stmt, p: Pool, n: string, pool: Pool, name: string)
    requires Creates(s) == Some((p, n))
    ensures Mention(s, pool, name) == if p == pool && n == name && name != "" then Sets else Effect.Leaves
  {
  }

  lemma AddedHas(list: seq<string>, n: string, name: string)
    ensures EachOnce(list) ==> EachOnce(Added(list, n))
    ensures name in Added(list, n) <==> name in list || (name == n && name != "")
  {
  }

  lemma AfterCreate(o: Objects, s: Stmt, pool: Pool)
    requires Creates(s).Some?
    ensures var (p, n) := Creates(s).value;
      PoolOf(AfterStatement(o, s), pool) == if p == pool then Added(PoolOf(o, pool), n) else PoolOf(o, pool)
  {
    var (p, n) := Creates(s).value;
    PoolOfWithPool(o, p, Added(PoolOf(o, p), n), pool);
  }

  lemma DropMentions(o: Objects, s: Stmt, pool: Pool, name: string)
    requires EachOnce(PoolOf(o, pool)) && Creates(s).None? && Drops(s).Some?
    ensures EachOnce(PoolOf(AfterStatement(o, s), pool))
    ensures name in PoolOf(AfterStatement(o, s), pool) <==> After(Mention(s, pool, name), name in PoolOf(o, pool))
  {
    AfterDrop(o, s, pool);
    WithoutAllHas(PoolOf(o, pool), Drops(s).value.1, name);
  }

  lemma AfterDrop(o: Objects, s: Stmt, pool: Pool)
    requires Creates(s).None? && Drops(s).Some?
    ensures var (p, names) := Drops(s).value;
      PoolOf(AfterStatement(o, s), pool) == if p == pool then WithoutAll(PoolOf(o, pool), names) else PoolOf(o, pool)
  {
    var (p, names) := Drops(s).value;
    PoolOfWithPool(o, p, WithoutAll(PoolOf(o, p), names), pool);
  }

  lemma {:induction false} StatementsMention(o: Objects, statements: seq<Stmt>, pool: Pool, name: string)
    requires EachOnce(PoolOf(o, pool))
    ensures EachOnce(PoolOf(AfterAll(o, statements), pool))
    ensures name in PoolOf(AfterAll(o, statements), pool)
        <==> Outcome(Mentions(statements, pool, name), name in PoolOf(o, pool))
    decreases |statements|
  {
    if statements != [] {
      StatementMentions(o, statements[0], pool, name);
      StatementsMention(AfterStatement(o, statements[0]), statements[1..], pool, name);
    }
  }

  /**
   * No pool lists a name twice, and a name exists at a version exactly when the last statement
   * up to it that creates or drops the name creates it.
   */
  lemma ExistsIffLastCreated(directory: seq<MigrationFile>, through: int, pool: Pool, name: string)
    ensures EachOnce(PoolOf(ObjectsAt(directory, through), pool))
    ensures name in PoolOf(ObjectsAt(directory, through), pool)
        <==> LastSets(Mentions(Through(directory, through), pool, name), false)
  {
    var statements := Through(directory, through);
    StatementsMention(NOTHING, statements, pool, name);
    LastEventWins(Mentions(statements, pool, name), false);
  }

  /** What a top-level DROP names first, outside tables. */
  function FirstDropped(s: Stmt): Option<(Pool, string)> {
    match s
    case DropRoutine(first, _) => Some((Routines, first))
    case DropTrigger(name, _) => Some((Routines, name))
    case DropOther(pool, first, _) => Some((pool, first))
    case _ => None
  }

  /** And behind it. */
  function LaterDropped(s: Stmt): seq<string> {
    match s
    case DropRoutine(_, rest) => rest
    case DropOther(_, _, rest) => rest
    case _ => []
  }

  lemma DropOfExisting(c: Context, s: Stmt, pool: Pool, name: string)
    requires FirstDropped(s) == Some((pool, name)) && name in PoolOf(c.objects, pool)
    ensures Decide(s, c, 0).kind == Destructive
  {
  }

  lemma DestructiveWins(decisions: seq<Decision>, d: Decision)
    requires d in decisions && d.kind == Destructive
    ensures KindOf(decisions) == Destructive
  {
    KindIsMostSevere(decisions);
  }

  /** Dropping something whose last mention was a create makes the file destructive. */
  lemma DroppingWhatExistsIsDestructive(directory: seq<MigrationFile>, file: MigrationFile, appliedOn: int, s: Stmt)
    requires s in file.statements && FirstDropped(s).Some?
    requires var (pool, name) := FirstDropped(s).value;
      LastSets(Mentions(Through(directory, appliedOn), pool, name), false)
    ensures KindOf(FileDecisions(directory, file, appliedOn)) == Destructive
  {
    var (pool, name) := FirstDropped(s).value;
    ExistsIffLastCreated(directory, appliedOn, pool, name);
    var c := Context(ObjectsAt(directory, appliedOn), Readded(file.statements));
    DropOfExisting(c, s, pool, name);
    DecideAllHas(file.statements, c, 0, Decide(s, c, 0));
    DestructiveWins(FileDecisions(directory, file, appliedOn), Decide(s, c, 0));
  }

  /** The statement drops a name that is there, behind a first name that is not the one judged. */
  predicate DropsBehind(s: Stmt, pool: Pool, name: string) {
    s.DropOther? && s.pool == pool && s.first != name && name in s.rest
  }

  /** Some statement drops the name behind another, and none after it creates the name again. */
  ghost predicate DroppedUnseen(statements: seq<Stmt>, pool: Pool, name: string) {
    exists k :: 0 <= k < |statements| && DropsBehind(statements[k], pool, name)
             && forall j :: k < j < |statements| ==> Creates(statements[j]) != Some((pool, name))
  }

  lemma {:induction false} MentionAt(statements: seq<Stmt>, pool: Pool, name: string, k: nat)
    requires k < |statements|
    ensures |Mentions(statements, pool, name)| == |statements|
    ensures Mentions(statements, pool, name)[k] == Mention(statements[k], pool, name)
  {
    if k > 0 {
      MentionAt(statements[1..], pool, name, k - 1);
    } else if |statements| > 1 {
      MentionAt(statements[1..], pool, name, 0);
    }
  }

  /** A drop of an existing name that is not destructive is judged by another name. */
  lemma QuietDropIsBehind(s: Stmt, c: Context, pool: Pool, name: string)
    requires Decide(s, c, 0).kind != Destructive && name in PoolOf(c.objects, pool) && name != ""
    ensures Mention(s, pool, name).Clears? <==> DropsBehind(s, pool, name)
    ensures Mention(s, pool, name).Sets? <==> Creates(s) == Some((pool, name))
  {
  }

  lemma UnseenNotLastSet(statements: seq<Stmt>, c: Context, pool: Pool, name: string)
    requires name != "" && name in PoolOf(c.objects, pool)
    requires forall s :: s in statements ==> Decide(s, c, 0).kind != Destructive
    requires DroppedUnseen(statements, pool, name)
    ensures !LastSets(Mentions(statements, pool, name), true)
  {
    var mentions := Mentions(statements, pool, name);
    forall k | 0 <= k < |statements|
      ensures |mentions| == |statements| && mentions[k] == Mention(statements[k], pool, name)
      ensures mentions[k].Clears? <==> DropsBehind(statements[k], pool, name)
      ensures mentions[k].Sets? <==> Creates(statements[k]) == Some((pool, name))
    {
      MentionAt(statements, pool, name, k);
      QuietDropIsBehind(statements[k], c, pool, name);
    }
    var k :| 0 <= k < |statements| && DropsBehind(statements[k], pool, name)
      && forall j :: k < j < |statements| ==> Creates(statements[j]) != Some((pool, name));
    assert mentions[k].Clears?;
    assert !QuietFrom(mentions, 0);
    forall m | 0 <= m < |mentions| && mentions[m].Sets?
      ensures !QuietFrom(mentions, m + 1)
    {
      assert m < k;
    }
  }

  lemma NotLastSetUnseen(statements: seq<Stmt>, c: Context, pool: Pool, name: string)
    requires name != "" && name in PoolOf(c.objects, pool)
    requires forall s :: s in statements ==> Decide(s, c, 0).kind != Destructive
    requires !LastSets(Mentions(statements, pool, name), true)
    ensures DroppedUnseen(statements, pool, name)
  {
    var mentions := Mentions(statements, pool, name);
    var k := LastMention(mentions);
    MentionAt(statements, pool, name, if k < |statements| then k else 0);
    QuietDropIsBehind(statements[k], c, pool, name);
    forall j | k < j < |statements|
      ensures Creates(statements[j]) != Some((pool, name))
    {
      MentionAt(statements, pool, name, j);
      QuietDropIsBehind(statements[j], c, pool, name);
    }
  }

  /**
   * What the picture of what exists loses over a file without a destructive statement: exactly the
   * names a top-level statement drops behind the first of a list and none creates again afterwards.
   */
  lemma DroppedExactlyUnseen(statements: seq<Stmt>, c: Context, pool: Pool, name: string)
    requires name != "" && name in PoolOf(c.objects, pool) && EachOnce(PoolOf(c.objects, pool))
    requires forall s :: s in statements ==> Decide(s, c, 0).kind != Destructive
    ensures name !in PoolOf(AfterAll(c.objects, statements), pool) <==> DroppedUnseen(statements, pool, name)
  {
    StatementsMention(c.objects, statements, pool, name);
    LastEventWins(Mentions(statements, pool, name), true);
    if DroppedUnseen(statements, pool, name) {
      UnseenNotLastSet(statements, c, pool, name);
    } else if !LastSets(Mentions(statements, pool, name), true) {
      NotLastSetUnseen(statements, c, pool, name);
    }
  }

  // ------------------------------------------------------------------ what runs

  /** The names a statement drops when it runs, all of a list, and their pool. */
  function Removes(s: Stmt): Option<(Pool, seq<string>)> {
    match s
    case DropTable(names) => Some((Tables, names))
    case DropRoutine(first, rest) => Some((Routines, [first] + rest))
    case DropTrigger(name, _) => Some((Routines, [name]))
    case DropOther(pool, first, rest) => Some((pool, [first] + rest))
    case _ => None
  }

  /** What a statement does to a name when it runs. */
  function Action(s: Stmt, pool: Pool, name: string): Effect {
    if Creates(s) == Some((pool, name)) then Sets
    else if Removes(s).Some? && Removes(s).value.0 == pool && name in Removes(s).value.1 then Clears
    else Effect.Leaves
  }

  function Actions(statements: seq<Stmt>, pool: Pool, name: string): seq<Effect> {
    seq(|statements|, k requires 0 <= k < |statements| => Action(statements[k], pool, name))
  }

  /** A name that is there is still there once the file has run, DO blocks and all. */
  predicate Survives(statements: seq<Stmt>, pool: Pool, name: string) {
    Outcome(Actions(LeavesOf(statements), pool, name), true)
  }

  /**
   * The statement drops the name without being judged by it: the name stands behind another in the
   * list, or first but unknown to the picture.
   */
  predicate DropsUnjudged(s: Stmt, o: Objects, pool: Pool, name: string) {
    && FirstDropped(s).Some?
    && var (from, first) := FirstDropped(s).value;
    && pool == from
    && (name in LaterDropped(s) || first == name)
    && (first == name ==> name !in PoolOf(o, pool))
  }

  /** Some statement, however deep, drops the name unjudged, and none that runs later creates it again. */
  ghost predicate DroppedUnjudged(statements: seq<Stmt>, o: Objects, pool: Pool, name: string) {
    var leaves := LeavesOf(statements);
    exists k :: 0 <= k < |leaves| && DropsUnjudged(leaves[k], o, pool, name)
             && forall j :: k < j < |leaves| ==> Creates(leaves[j]) != Some((pool, name))
  }

  /** A leaf that is not destructive drops a name exactly when it is not judged by that name. */
  lemma QuietLeafDrops(leaf: Stmt, c: Context, pool: Pool, name: string)
    requires !leaf.DoBlock? && Judge(leaf, c).kind != Destructive
    ensures Action(leaf, pool, name).Clears? <==> DropsUnjudged(leaf, c.objects, pool, name)
    ensures Action(leaf, pool, name).Sets? <==> Creates(leaf) == Some((pool, name))
  {
  }

  lemma UnjudgedIsLast(leaves: seq<Stmt>, o: Objects, pool: Pool, name: string)
    requires forall k :: 0 <= k < |leaves| ==>
      && (Action(leaves[k], pool, name).Clears? <==> DropsUnjudged(leaves[k], o, pool, name))
      && (Action(leaves[k], pool, name).Sets? <==> Creates(leaves[k]) == Some((pool, name)))
    ensures LastSets(Actions(leaves, pool, name), true)
       <==> !exists k :: 0 <= k < |leaves| && DropsUnjudged(leaves[k], o, pool, name)
                      && forall j :: k < j < |leaves| ==> Creates(leaves[j]) != Some((pool, name))
  {
    var actions := Actions(leaves, pool, name);
    if !LastSets(actions, true) {
      var k := LastMention(actions);
      assert actions[k].Clears? && DropsUnjudged(leaves[k], o, pool, name);
      forall j | k < j < |leaves|
        ensures Creates(leaves[j]) != Some((pool, name))
      {
        assert actions[j].Leaves?;
      }
    }
    if k :| (0 <= k < |leaves| && DropsUnjudged(leaves[k], o, pool, name)
             && forall j :: k < j < |leaves| ==> Creates(leaves[j]) != Some((pool, name))) {
      assert actions[k].Clears? && !QuietFrom(actions, 0);
      forall m | 0 <= m < |actions| && actions[m].Sets?
        ensures !QuietFrom(actions, m + 1)
      {
        assert m < k;
      }
    }
  }

  /**
   * What a file in which nothing is destructive, however deep, still drops when it runs: exactly the
   * names one of its statements drops unjudged and no later one creates again.
   */
  lemma DroppedExactlyUnjudged(statements: seq<Stmt>, c: Context, pool: Pool, name: string)
    requires forall leaf :: leaf in LeavesOf(statements) ==> Judge(leaf, c).kind != Destructive
    ensures !Survives(statements, pool, name) <==> DroppedUnjudged(statements, c.objects, pool, name)
  {
    var leaves := LeavesOf(statements);
    forall k | 0 <= k < |leaves|
      ensures Action(leaves[k], pool, name).Clears? <==> DropsUnjudged(leaves[k], c.objects, pool, name)
      ensures Action(leaves[k], pool, name).Sets? <==> Creates(leaves[k]) == Some((pool, name))
    {
      assert leaves[k] in leaves;
      QuietLeafDrops(leaves[k], c, pool, name);
    }
    UnjudgedIsLast(leaves, c.objects, pool, name);
    LastEventWins(Actions(leaves, pool, name), true);
  }

  /** The picture can follow the statement: it is no DO block, and names one routine at most to drop. */
  predicate Plainly(s: Stmt) {
    !s.DoBlock? && (s.DropRoutine? ==> s.rest == [])
  }

  lemma {:induction false} PlainLeaves(statements: seq<Stmt>)
    requires forall s :: s in statements ==> Plainly(s)
    ensures LeavesOf(statements) == statements
  {
    if statements != [] {
      PlainLeaves(statements[1..]);
      assert statements[0] in statements;
      assert statements == [statements[0]] + statements[1..];
    }
  }

  lemma MentionIsAction(s: Stmt, pool: Pool, name: string)
    requires name != "" && Plainly(s)
    ensures Mention(s, pool, name) == Action(s, pool, name)
  {
  }

  lemma {:induction false} MentionsAreActions(statements: seq<Stmt>, pool: Pool, name: string)
    requires name != "" && forall s :: s in statements ==> Plainly(s)
    ensures Mentions(statements, pool, name) == Actions(statements, pool, name)
  {
    if statements != [] {
      MentionIsAction(statements[0], pool, name);
      MentionsAreActions(statements[1..], pool, name);
    }
  }

  /**
   * Where the picture can follow every statement it loses a name exactly when the server does; with a
   * DO block or a longer routine list it can go on listing what is gone.
   */
  lemma PictureFollows(statements: seq<Stmt>, o: Objects, pool: Pool, name: string)
    requires name != "" && name in PoolOf(o, pool) && EachOnce(PoolOf(o, pool))
    requires forall s :: s in statements ==> Plainly(s)
    ensures name in PoolOf(AfterAll(o, statements), pool) <==> Survives(statements, pool, name)
  {
    StatementsMention(o, statements, pool, name);
    PlainLeaves(statements);
    MentionsAreActions(statements, pool, name);
  }
}
