// tools/upgrade/classify.ts: what exists at a schema version, what one statement does to it,
// and the one word a migration file comes down to.
module Classify {
  import opened Lists
  import opened Text

  datatype Class = Destructive | Unclassified | TouchesExisting | Privilege | ReplacesRoutine | Additive

  /** Position in the severity order, strongest first. */
  function Rank(c: Class): nat {
    match c
    case Destructive => 0
    case Unclassified => 1
    case TouchesExisting => 2
    case Privilege => 3
    case ReplacesRoutine => 4
    case Additive => 5
  }

  datatype Pool = Tables | Routines | Indexes | Views | Types | Sequences

  /** What one word of a DROP, after the tables and the routines, can name. */
  type OtherPool = p: Pool | p != Tables && p != Routines witness Indexes

  /**
   * What a GRANT or REVOKE is on. Of its objects the source reads one `word`, up to the first blank;
   * `tables` are the tables it is really on.
   */
  datatype Target = SchemaWide | OnObject(word: string, tables: seq<string>) | RoleMembership

  /** A statement after parsing. Names are bare. */
  datatype Stmt =
    /** A DO block and the statements of its outermost BEGIN ... END. */
    | DoBlock(body: seq<Stmt>)
    /** A DO block whose body cannot be read whole. */
    | OpaqueDo
    | DropTable(names: seq<string>)
    /** `dropsColumn`: it says DROP COLUMN. `bareDrop`: it drops a column without the optional word COLUMN. */
    | AlterTable(table: string, dropsColumn: bool, bareDrop: bool, dropsConstraint: bool, dropped: seq<string>,
                 added: seq<string>)
    | Truncate(table: string)
    | Delete(table: string, filtered: bool)
    /** DROP FUNCTION, PROCEDURE or ROUTINE, of which the source reads no name but the first. */
    | DropRoutine(first: string, rest: seq<string>)
    | DropTrigger(name: string, table: string)
    /** DROP INDEX, VIEW, TYPE, DOMAIN or SEQUENCE. */
    | DropOther(pool: OtherPool, first: string, rest: seq<string>)
    | ReplaceRoutine(name: string)
    | ReplaceTrigger(name: string, table: string)
    | AlterRoutine(name: string)
    | CreateIndex(index: Option<string>, table: string)
    | CreateTrigger(name: string, table: string)
    | CreateView(name: string)
    | AlterView(name: string)
    | RefreshView(name: string)
    | AlterSequence(name: string)
    | CreateSequence(name: string, ownedBy: Option<string>)
    | Update(table: string)
    | Insert(table: string)
    | GrantOrRevoke(target: Target)
    | RoleStatement
    | CreateRoutine(name: string)
    | CreateTable(name: string)
    | CreateType(name: string)
    /** A comment, a session setting, transaction control, an extension: known to touch nothing. */
    | Harmless
    | Unrecognised

  datatype Objects = Objects(tables: seq<string>, routines: seq<string>, indexes: seq<string>, views: seq<string>,
                             types: seq<string>, sequences: seq<string>)

  function PoolOf(o: Objects, pool: Pool): seq<string> {
    match pool
    case Tables => o.tables
    case Routines => o.routines
    case Indexes => o.indexes
    case Views => o.views
    case Types => o.types
    case Sequences => o.sequences
  }

  // ------------------------------------------------------------- the running picture

  function Added(list: seq<string>, name: string): seq<string> {
    if name != "" && name !in list then list + [name] else list
  }

  function WithPool(o: Objects, pool: Pool, list: seq<string>): Objects {
    match pool
    case Tables => o.(tables := list)
    case Routines => o.(routines := list)
    case Indexes => o.(indexes := list)
    case Views => o.(views := list)
    case Types => o.(types := list)
    case Sequences => o.(sequences := list)
  }

  /** What a top-level statement creates, and in which pool. */
  function Creates(s: Stmt): Option<(Pool, string)> {
    match s
    case CreateTable(name) => Some((Tables, name))
    case ReplaceRoutine(name) => Some((Routines, name))
    case ReplaceTrigger(name, _) => Some((Routines, name))
    case CreateRoutine(name) => Some((Routines, name))
    case CreateTrigger(name, _) => Some((Routines, name))
    case CreateIndex(index, _) => if index.Some? then Some((Indexes, index.value)) else None
    case CreateView(name) => Some((Views, name))
    case CreateType(name) => Some((Types, name))
    case CreateSequence(name, _) => Some((Sequences, name))
    case _ => None
  }

  /** What a top-level statement drops, and from which pool. */
  function Drops(s: Stmt): Option<(Pool, seq<string>)> {
    match s
    case DropTable(names) => Some((Tables, names))
    case DropRoutine(first, _) => Some((Routines, [first]))
    case DropTrigger(name, _) => Some((Routines, [name]))
    case DropOther(pool, first, rest) => Some((pool, [first] + rest))
    case _ => None
  }

  /** Fold one statement into the picture of what exists. */
  function AfterStatement(o: Objects, s: Stmt): Objects {
    if Creates(s).Some? then
      var (pool, name) := Creates(s).value;
      WithPool(o, pool, Added(PoolOf(o, pool), name))
    else if Drops(s).Some? then
      var (pool, names) := Drops(s).value;
      WithPool(o, pool, WithoutAll(PoolOf(o, pool), names))
    else o
  }

  function AfterAll(o: Objects, statements: seq<Stmt>): Objects
    decreases |statements|
  {
    if statements == [] then o else AfterAll(AfterStatement(o, statements[0]), statements[1..])
  }

  datatype MigrationFile = MigrationFile(name: string, version: nat, statements: seq<Stmt>)

  /** The statements of the files numbered up to `through`, in file order. */
  function Through(directory: seq<MigrationFile>, through: int): seq<Stmt> {
    if directory == [] then []
    else (if directory[0].version <= through then directory[0].statements else []) + Through(directory[1..], through)
  }

  const NOTHING := Objects([], [], [], [], [], [])

  /** Everything the migrations up to `through` leave behind. */
  function ObjectsAt(directory: seq<MigrationFile>, through: int): Objects {
    AfterAll(NOTHING, Through(directory, through))
  }

  /** The picture the files are folded into, updated in place. */
  class ObjectStore {
    var tables: seq<string>
    var routines: seq<string>
    var indexes: seq<string>
    var views: seq<string>
    var types: seq<string>
    var sequences: seq<string>

    function Picture(): Objects
      reads this
    {
      Objects(tables, routines, indexes, views, types, sequences)
    }

    constructor ()
      ensures Picture() == NOTHING
    {
      tables, routines, indexes, views, types, sequences := [], [], [], [], [], [];
    }

    method Put(pool: Pool, list: seq<string>)
      modifies this
      ensures Picture() == WithPool(old(Picture()), pool, list)
    {
      match pool {
        case Tables => tables := list;
        case Routines => routines := list;
        case Indexes => indexes := list;
        case Views => views := list;
        case Types => types := list;
        case Sequences => sequences := list;
      }
    }

    method Add(pool: Pool, name: string)
      modifies this
      ensures Picture() == WithPool(old(Picture()), pool, Added(PoolOf(old(Picture()), pool), name))
    {
      var list := PoolOf(Picture(), pool);
      if name != "" && name !in list {
        list := list + [name];
      }
      Put(pool, list);
    }

    method Remove(pool: Pool, names: seq<string>)
      modifies this
      ensures Picture() == WithPool(old(Picture()), pool, WithoutAll(PoolOf(old(Picture()), pool), names))
    {
      var list := PoolOf(Picture(), pool);
      for i := 0 to |names|
        invariant Picture() == old(Picture())
        invariant WithoutAll(list, names[i..]) == WithoutAll(PoolOf(old(Picture()), pool), names)
      {
        assert names[i..][1..] == names[i + 1..];
        list := Without(list, names[i]);
      }
      Put(pool, list);
    }

    /** Fold one statement in. */
    method Apply(s: Stmt)
      modifies this
      ensures Picture() == AfterStatement(old(Picture()), s)
    {
      if Creates(s).Some? {
        var (pool, name) := Creates(s).value;
        Add(pool, name);
      } else if Drops(s).Some? {
        var (pool, names) := Drops(s).value;
        Remove(pool, names);
      }
    }
  }

  method ReadFile(store: ObjectStore, statements: seq<Stmt>, ghost later: seq<Stmt>)
    modifies store
    ensures AfterAll(store.Picture(), later) == AfterAll(old(store.Picture()), statements + later)
  {
    for j := 0 to |statements|
      invariant AfterAll(store.Picture(), statements[j..] + later) == AfterAll(old(store.Picture()), statements + later)
    {
      assert (statements[j..] + later)[1..] == statements[j + 1..] + later;
      store.Apply(statements[j]);
    }
    assert statements[|statements|..] + later == later;
  }

  method ReadObjects(directory: seq<MigrationFile>, through: int) returns (o: Objects)
    ensures o == ObjectsAt(directory, through)
  {
    var store := new ObjectStore();
    for i := 0 to |directory|
      invariant AfterAll(store.Picture(), Through(directory[i..], through)) == ObjectsAt(directory, through)
    {
      assert directory[i..][1..] == directory[i + 1..];
      ghost var later := Through(directory[i + 1..], through);
      if directory[i].version <= through {
        ReadFile(store, directory[i].statements, later);
      } else {
        assert [] + later == later;
      }
    }
    o := store.Picture();
  }

  // ---------------------------------------------------------------- one statement

  /** The objects a file is judged against, and the constraints the file itself adds back. */
  datatype Context = Context(objects: Objects, readded: set<(string, string)>)

  datatype Decision = Decision(kind: Class, statement: Stmt, routine: Option<string>)

  /** The strongest of the decisions, the first among equals. */
  function Worst(decisions: seq<Decision>): (worst: Decision)
    requires decisions != []
    ensures worst in decisions
    ensures forall d :: d in decisions ==> Rank(worst.kind) <= Rank(d.kind)
  {
    if |decisions| == 1 then decisions[0]
    else
      var rest := Worst(decisions[1..]);
      if Rank(decisions[0].kind) <= Rank(rest.kind) then decisions[0] else rest
  }

  function DecideAll(statements: seq<Stmt>, c: Context, depth: nat): (decisions: seq<Decision>)
    ensures |decisions| == |statements|
    decreases statements, 0
  {
    if statements == [] then []
    else [Decide(statements[0], c, depth)] + DecideAll(statements[1..], c, depth)
  }

  /** How one statement is classified. DO blocks are opened three deep and no further. */
  function Decide(s: Stmt, c: Context, depth: nat): Decision
    decreases s, 1
  {
    if s.DoBlock? then
      if depth > 2 || s.body == [] then Decision(Unclassified, s, None)
      else
        var decisions := DecideAll(s.body, c, depth + 1);
        if exists i :: 0 <= i < |decisions| && decisions[i].kind == Unclassified then Decision(Unclassified, s, None)
        else
          var worst := Worst(decisions);
          Decision(worst.kind, s, worst.routine)
    else Judge(s, c)
  }

  function OnPool(s: Stmt, list: seq<string>, name: string, known: Class): Decision {
    Decision(if name in list then known else Additive, s, None)
  }

  function OnRoutine(s: Stmt, routines: seq<string>, name: string): Decision {
    if name in routines then Decision(ReplacesRoutine, s, Some(name)) else Decision(Additive, s, None)
  }

  /** A statement that is not a DO block. */
  function Judge(s: Stmt, c: Context): (d: Decision)
    requires !s.DoBlock?
    ensures d.statement == s
  {
    var o := c.objects;
    match s
    case OpaqueDo => Decision(Unclassified, s, None)
    case DropTable(_) => Decision(Destructive, s, None)
    case AlterTable(table, dropsColumn, _, dropsConstraint, dropped, _) =>
      if dropsColumn then Decision(Destructive, s, None)
      else if dropsConstraint then
        var swapped := dropped != [] && forall name :: name in dropped ==> (table, name) in c.readded;
        Decision(if swapped then TouchesExisting else Destructive, s, None)
      else OnPool(s, o.tables, table, TouchesExisting)
    case Truncate(_) => Decision(Destructive, s, None)
    case Delete(_, filtered) => Decision(if filtered then TouchesExisting else Destructive, s, None)
    case DropRoutine(first, _) => OnPool(s, o.routines, first, Destructive)
    case DropTrigger(name, _) => OnPool(s, o.routines, name, Destructive)
    case DropOther(pool, first, _) => OnPool(s, PoolOf(o, pool), first, Destructive)
    case ReplaceRoutine(name) => OnRoutine(s, o.routines, name)
    case ReplaceTrigger(name, _) => OnRoutine(s, o.routines, name)
    case AlterRoutine(name) => OnRoutine(s, o.routines, name)
    case CreateIndex(_, table) => OnPool(s, o.tables, table, TouchesExisting)
    case CreateTrigger(_, table) => OnPool(s, o.tables, table, TouchesExisting)
    case CreateView(name) => OnPool(s, o.views, name, TouchesExisting)
    case AlterView(name) => OnPool(s, o.views, name, TouchesExisting)
    case RefreshView(_) => Decision(TouchesExisting, s, None)
    case AlterSequence(name) => OnPool(s, o.sequences, name, TouchesExisting)
    case CreateSequence(_, ownedBy) =>
      if ownedBy.Some? then OnPool(s, o.tables, ownedBy.value, TouchesExisting) else Decision(Additive, s, None)
    case Update(table) => OnPool(s, o.tables, table, TouchesExisting)
    case Insert(table) => OnPool(s, o.tables, table, TouchesExisting)
    case GrantOrRevoke(target) =>
      (match target
       case SchemaWide => Decision(Privilege, s, None)
       case RoleMembership => Decision(Privilege, s, None)
       case OnObject(word, _) => OnPool(s, o.tables, word, Privilege))
    case RoleStatement => Decision(Privilege, s, None)
    case CreateRoutine(_) => Decision(Additive, s, None)
    case CreateTable(_) => Decision(Additive, s, None)
    case CreateType(_) => Decision(Additive, s, None)
    case Harmless => Decision(Additive, s, None)
    case Unrecognised => Decision(Unclassified, s, None)
  }

  // --------------------------------------------------------------------- one file

  /** The constraints one statement adds, with their table. */
  function AddedBy(s: Stmt): (added: set<(string, string)>)
    ensures forall pair :: pair in added <==> s.AlterTable? && s.table == pair.0 && pair.1 in s.added
  {
    if s.AlterTable? then set name | name in s.added :: (s.table, name) else {}
  }

  /** Every constraint a top-level ALTER TABLE of the file adds, with its table. */
  function Readded(statements: seq<Stmt>): set<(string, string)> {
    if statements == [] then {} else AddedBy(statements[0]) + Readded(statements[1..])
  }

  datatype Classification = Classification(file: string, version: nat, appliedOn: int, kind: Class,
                                           decisions: seq<Decision>, existingTables: seq<string>,
                                           routinesReplaced: seq<string>, hasUnclassified: bool)

  function OfKind(decisions: seq<Decision>, kind: Class): seq<Decision> {
    if decisions == [] then []
    else (if decisions[0].kind == kind then [decisions[0]] else []) + OfKind(decisions[1..], kind)
  }

  /** Sorted by severity; equal kinds keep their order. */
  function Sorted(decisions: seq<Decision>): seq<Decision> {
    OfKind(decisions, Destructive) + OfKind(decisions, Unclassified) + OfKind(decisions, TouchesExisting)
    + OfKind(decisions, Privilege) + OfKind(decisions, ReplacesRoutine) + OfKind(decisions, Additive)
  }

  function NotAdditive(decisions: seq<Decision>): seq<Decision> {
    if decisions == [] then []
    else (if decisions[0].kind == Additive then [] else [decisions[0]]) + NotAdditive(decisions[1..])
  }

  /** The decisions on every statement of the file, in file order. */
  function FileDecisions(directory: seq<MigrationFile>, file: MigrationFile, appliedOn: int): seq<Decision> {
    DecideAll(file.statements, Context(ObjectsAt(directory, appliedOn), Readded(file.statements)), 0)
  }

  /** `list` as the routines are collected: each replaced one once, in order of first mention. */
  function RoutinesReplaced(list: seq<string>, decisions: seq<Decision>): seq<string>
    decreases |decisions|
  {
    if decisions == [] then list
    else
      RoutinesReplaced(if decisions[0].kind == ReplacesRoutine && decisions[0].routine.Some?
                       then Added(list, decisions[0].routine.value) else list, decisions[1..])
  }

  method ReadReadded(statements: seq<Stmt>) returns (readded: set<(string, string)>)
    ensures readded == Readded(statements)
  {
    readded := {};
    for i := 0 to |statements|
      invariant readded + Readded(statements[i..]) == Readded(statements)
    {
      assert statements[i..][1..] == statements[i + 1..];
      readded := readded + AddedBy(statements[i]);
    }
  }

  /** The printable decisions and the replaced routines of a list of statements. */
  method DecideStatements(statements: seq<Stmt>, context: Context)
    returns (decisions: seq<Decision>, routines: seq<string>)
    ensures decisions == NotAdditive(DecideAll(statements, context, 0))
    ensures routines == RoutinesReplaced([], DecideAll(statements, context, 0))
  {
    decisions, routines := [], [];
    for i := 0 to |statements|
      invariant decisions + NotAdditive(DecideAll(statements[i..], context, 0))
        == NotAdditive(DecideAll(statements, context, 0))
      invariant RoutinesReplaced(routines, DecideAll(statements[i..], context, 0))
             == RoutinesReplaced([], DecideAll(statements, context, 0))
    {
      var decision := Decide(statements[i], context, 0);
      DecisionStep(statements[i..], context, decisions, routines);
      assert statements[i..][1..] == statements[i + 1..];
      if decision.kind == ReplacesRoutine && decision.routine.Some? {
        routines := Added(routines, decision.routine.value);
      }
      if decision.kind != Additive {
        decisions := decisions + [decision];
      }
    }
  }

  lemma DecisionStep(statements: seq<Stmt>, context: Context, decisions: seq<Decision>, routines: seq<string>)
    requires statements != []
    ensures var d, rest := Decide(statements[0], context, 0), DecideAll(statements[1..], context, 0);
      && decisions + NotAdditive(DecideAll(statements, context, 0))
         == (if d.kind == Additive then decisions else decisions + [d]) + NotAdditive(rest)
      && RoutinesReplaced(routines, DecideAll(statements, context, 0))
         == RoutinesReplaced(if d.kind == ReplacesRoutine && d.routine.Some? then Added(routines, d.routine.value)
                             else routines, rest)
  {
    var d, rest := Decide(statements[0], context, 0), DecideAll(statements[1..], context, 0);
    var all := DecideAll(statements, context, 0);
    assert all == [d] + rest && all[1..] == rest;
  }

  /** The class of a file on top of what the earlier files leave. */
  method ClassifyMigration(directory: seq<MigrationFile>, file: MigrationFile, appliedOn: int)
    returns (r: Classification)
    ensures r.file == file.name && r.version == file.version && r.appliedOn == appliedOn
    ensures r.existingTables == ObjectsAt(directory, appliedOn).tables
    ensures r.decisions == Sorted(NotAdditive(FileDecisions(directory, file, appliedOn)))
    ensures r.kind == if r.decisions == [] then Additive else r.decisions[0].kind
    ensures r.routinesReplaced == RoutinesReplaced([], FileDecisions(directory, file, appliedOn))
    ensures r.hasUnclassified <==> exists d :: d in r.decisions && d.kind == Unclassified
  {
    var objects := ReadObjects(directory, appliedOn);
    var readded := ReadReadded(file.statements);
    var decisions, routines := DecideStatements(file.statements, Context(objects, readded));
    decisions := Sorted(decisions);
    var hasUnclassified := exists d :: d in decisions && d.kind == Unclassified;
    r := Classification(file.name, file.version, appliedOn, if decisions == [] then Additive else decisions[0].kind,
                        decisions, objects.tables, routines, hasUnclassified);
  }
}
