// tools/ci/release-plan.ts: whether a release may go out by itself.
module ReleasePlan {
  import opened Lists
  import opened Text
  import opened Classify
  import opened ClassifyMeaning

  datatype PathKind = SchemaOrMigration | BrowserHost | Guard | Source | UnknownPath

  /** A file name is a migration's, or only happens to begin with something that reads as a number. */
  datatype FileKind = Numbered(version: nat, statements: seq<Stmt>) | Misnamed(number: Option<int>)

  /** An entry of the migrations tree of one commit. */
  datatype TreeEntry = TreeEntry(path: string, file: string, blob: string, kind: FileKind)

  datatype Input = Input(held: bool, changed: seq<string>, fromSchema: nat, toSchema: nat,
                         before: seq<TreeEntry>, after: seq<TreeEntry>)

  datatype Reason =
    | HostImageChange(path: string)
    | GuardChange(path: string)
    | UnknownReleasePath(path: string)
    | SchemaRollback
    | DeployedRemoved(path: string)
    | UnknownMigrationPath(path: string)
    | DeployedChanged(path: string)
    | MissingOrDuplicate(version: nat)
    | ReviewedMigration(file: string, kind: Class)

  datatype Release = Held | Reviewed | Maintenance | Application

  datatype Plan = Plan(decision: Release, reasons: seq<Reason>)

  // ------------------------------------------------------------------ changed paths

  const SCHEMA_FILE := "packages/domain/db/schemaRange.ts"
  const MIGRATIONS := "packages/domain/db/migrations/"

  predicate HasSuffix(s: string, suffix: string) {
    |suffix| <= |s| && s[|s| - |suffix|..] == suffix
  }

  predicate Digit(c: char) {
    '0' <= c <= '9'
  }

  /** Four digits, an underscore, lower-case letters, digits and underscores, and `.sql`. */
  predicate MigrationName(file: string) {
    && |file| > 9 && HasSuffix(file, ".sql") && file[4] == '_'
    && (forall i :: 0 <= i < 4 ==> Digit(file[i]))
    && (forall i :: 5 <= i < |file| - 4 ==> 'a' <= file[i] <= 'z' || Digit(file[i]) || file[i] == '_')
  }

  predicate MigrationPath(path: string) {
    MIGRATIONS <= path && MigrationName(path[|MIGRATIONS|..])
  }

  predicate HostImagePath(path: string) {
    || "packages/social-publisher/" <= path
    || path == "Dockerfile.api" || path == "Dockerfile.api.dockerignore" || path == "package-lock.json"
  }

  predicate GuardPath(path: string) {
    || "infra/" <= path || ".github/" <= path || "tools/ci/" <= path || "tools/upgrade/" <= path
    || path == ".gitattributes" || path == "packages/domain/db/migrationRunner.ts"
    || path == "packages/domain/db/queryable.ts" || path == "scripts/productionSmoke.mjs"
  }

  predicate SourcePath(path: string) {
    || "apps/" <= path || "packages/" <= path || "scripts/" <= path || "docs/" <= path
    || "test/" <= path || "tests/" <= path || "certs/" <= path
    || path == "Dockerfile.api" || path == "Dockerfile.api.dockerignore"
    || path == "Dockerfile.worker" || path == "Dockerfile.worker.dockerignore"
    || path == "package.json" || path == "package-lock.json"
    || ("tsconfig" <= path && HasSuffix(path[8..], ".json"))
    || ("eslint" <= path && HasSuffix(path[6..], ".mjs"))
    || path == "README.md" || path == "AGENTS.md" || path == "CLAUDE.md"
  }

  function KindOfPath(path: string): PathKind {
    if path == SCHEMA_FILE || MigrationPath(path) then SchemaOrMigration
    else if HostImagePath(path) then BrowserHost
    else if GuardPath(path) then Guard
    else if SourcePath(path) then Source
    else UnknownPath
  }

  function NumberOf(e: TreeEntry): Option<int> {
    match e.kind
    case Numbered(version, _) => Some(version)
    case Misnamed(number) => number
  }

  // ------------------------------------------------------- the working directory

  predicate Before(x: string, y: string) {
    if y == "" then false
    else if x == "" then true
    else x[0] < y[0] || (x[0] == y[0] && Before(x[1..], y[1..]))
  }

  /** Writing a file into the directory, which lists its files in name order. */
  function Put(directory: seq<MigrationFile>, f: MigrationFile): seq<MigrationFile> {
    if directory == [] then [f]
    else if directory[0].name == f.name then [f] + directory[1..]
    else if Before(f.name, directory[0].name) then [f] + directory
    else [directory[0]] + Put(directory[1..], f)
  }

  function Written(directory: seq<MigrationFile>, tree: seq<TreeEntry>): seq<MigrationFile>
    decreases |tree|
  {
    if tree == [] then directory
    else
      Written(match tree[0].kind
              case Numbered(version, statements) => Put(directory, MigrationFile(tree[0].file, version, statements))
              case Misnamed(_) => directory,
              tree[1..])
  }

  function Matching(tree: seq<TreeEntry>, version: nat): (entries: seq<TreeEntry>)
    ensures forall e :: e in entries <==> e in tree && NumberOf(e) == Some(version)
  {
    if tree == [] then []
    else (if NumberOf(tree[0]) == Some(version) then [tree[0]] else []) + Matching(tree[1..], version)
  }

  // ---------------------------------------------------------- what is asked for

  predicate PathFine(path: string) {
    KindOfPath(path).SchemaOrMigration? || KindOfPath(path).Source?
  }

  /** A path is fine exactly when it is ordinary source, and neither of the host image nor a guard. */
  lemma FineIsOrdinarySource(path: string)
    ensures PathFine(path) <==> SourcePath(path) && !HostImagePath(path) && !GuardPath(path)
  {
    if path == SCHEMA_FILE || MigrationPath(path) {
      SchemaIsOrdinary(path);
    }
  }

  lemma SchemaIsOrdinary(path: string)
    requires path == SCHEMA_FILE || MIGRATIONS <= path
    ensures SourcePath(path) && !HostImagePath(path) && !GuardPath(path)
  {
    assert path[0] == 'p' && path[8] == '/' && path[9] == 'd' && path[19] != 'q';
    assert path == SCHEMA_FILE ==> path[19] == 's';
    assert MIGRATIONS <= path ==> path[28] == 's';
    assert "packages/" <= path;
  }

  ghost predicate Present(tree: seq<TreeEntry>, path: string) {
    exists e :: e in tree && e.path == path
  }

  ghost predicate Unchanged(before: seq<TreeEntry>, e: TreeEntry) {
    exists was :: was in before && was.path == e.path && was.blob == e.blob
  }

  predicate Deployed(e: TreeEntry, schema: nat) {
    NumberOf(e).Some? && NumberOf(e).value <= schema
  }

  /** The decisions on a new migration's statements, against what the migrations before it leave. */
  function DecisionsOn(i: Input, e: TreeEntry): seq<Decision>
    requires e.kind.Numbered?
  {
    FileDecisions(Written([], i.after), MigrationFile(e.file, e.kind.version, e.kind.statements), e.kind.version - 1)
  }

  predicate Automatic(kind: Class) {
    kind == Additive || kind == ReplacesRoutine
  }

  ghost predicate VersionSafe(i: Input, version: nat) {
    var entries := Matching(i.after, version);
    && |entries| == 1
    && entries[0].kind.Numbered?
    && forall d :: d in DecisionsOn(i, entries[0]) ==> Automatic(d.kind)
  }

  /** Nothing about the release needs a person. */
  ghost predicate NeedsNobody(i: Input) {
    && i.fromSchema <= i.toSchema
    && (forall path :: path in i.changed ==> PathFine(path))
    && (forall e :: e in i.before && Deployed(e, i.fromSchema) ==> Present(i.after, e.path))
    && (forall e :: e in i.after ==> e.kind.Numbered?)
    && (forall e :: e in i.after && Deployed(e, i.fromSchema) ==> Unchanged(i.before, e))
    && (forall version :: i.fromSchema < version <= i.toSchema ==> VersionSafe(i, version))
  }

  /** A deployed file of the new commit has no counterpart git could compare it with. */
  ghost predicate Incomparable(before: seq<TreeEntry>, after: seq<TreeEntry>, fromSchema: nat) {
    exists e :: e in after && e.kind.Numbered? && e.kind.version <= fromSchema && !Present(before, e.path)
  }

  /** The one file of a new version is not named as a migration. */
  predicate Misread(i: Input, version: nat) {
    |Matching(i.after, version)| == 1 && Matching(i.after, version)[0].kind.Misnamed?
  }

  /** The script stops without a decision. */
  ghost predicate Stops(i: Input) {
    || Incomparable(i.before, i.after, i.fromSchema)
    || exists version :: i.fromSchema < version <= i.toSchema && Misread(i, version)
  }

  /** Paths of a tree are distinct. */
  ghost predicate OneEntryPerPath(tree: seq<TreeEntry>) {
    forall x, y :: x in tree && y in tree && x.path == y.path ==> x == y
  }

  // ------------------------------------------------------------------- the steps

  method CheckPaths(changed: seq<string>) returns (reasons: seq<Reason>)
    ensures reasons == [] <==> forall path :: path in changed ==> PathFine(path)
  {
    reasons := [];
    for k := 0 to |changed|
      invariant reasons == [] <==> forall path :: path in changed[..k] ==> PathFine(path)
    {
      var path := changed[k];
      Grown(changed, k);
      assert path in changed[..k + 1];
      match KindOfPath(path) {
        case SchemaOrMigration =>
        case BrowserHost => reasons := reasons + [HostImageChange(path)];
        case Guard => reasons := reasons + [GuardChange(path)];
        case Source =>
        case UnknownPath => reasons := reasons + [UnknownReleasePath(path)];
      }
    }
    assert changed[..|changed|] == changed;
  }

  method Find(tree: seq<TreeEntry>, path: string) returns (found: Option<TreeEntry>)
    ensures found.None? <==> !Present(tree, path)
    ensures found.Some? ==> found.value in tree && found.value.path == path
  {
    for k := 0 to |tree|
      invariant !Present(tree[..k], path)
    {
      if tree[k].path == path {
        return Some(tree[k]);
      }
    }
    assert tree[..|tree|] == tree;
    found := None;
  }

  method CheckRemoved(before: seq<TreeEntry>, after: seq<TreeEntry>, fromSchema: nat) returns (reasons: seq<Reason>)
    ensures reasons == [] <==> forall e :: e in before && Deployed(e, fromSchema) ==> Present(after, e.path)
  {
    reasons := [];
    for k := 0 to |before|
      invariant reasons == [] <==> forall e :: e in before[..k] && Deployed(e, fromSchema) ==> Present(after, e.path)
    {
      assert before[..k + 1] == before[..k] + [before[k]];
      if Deployed(before[k], fromSchema) {
        var found := Find(after, before[k].path);
        if found.None? {
          reasons := reasons + [DeployedRemoved(before[k].path)];
        }
      }
    }
    assert before[..|before|] == before;
  }

  /** Writes the new commit's migrations out, comparing the deployed ones on the way. */
  method WriteMigrations(before: seq<TreeEntry>, after: seq<TreeEntry>, fromSchema: nat)
    returns (r: Result<(seq<MigrationFile>, seq<Reason>)>)
    requires OneEntryPerPath(before)
    ensures r.Err? <==> Incomparable(before, after, fromSchema)
    ensures r.Ok? ==> r.value.0 == Written([], after)
    ensures r.Ok? ==> (r.value.1 == [] <==>
      forall e :: e in after ==> e.kind.Numbered? && (e.kind.version <= fromSchema ==> Unchanged(before, e)))
  {
    var directory: seq<MigrationFile>, reasons: seq<Reason> := [], [];
    for k := 0 to |after|
      invariant Written(directory, after[k..]) == Written([], after)
      invariant forall e :: e in after[..k] && e.kind.Numbered? && e.kind.version <= fromSchema ==>
        Present(before, e.path)
      invariant reasons == [] <==>
        forall e :: e in after[..k] ==> e.kind.Numbered? && (e.kind.version <= fromSchema ==> Unchanged(before, e))
    {
      var e := after[k];
      assert after[..k + 1] == after[..k] + [e];
      assert after[k..][1..] == after[k + 1..];
      match e.kind {
        case Misnamed(_) => reasons := reasons + [UnknownMigrationPath(e.path)];
        case Numbered(version, statements) =>
          directory := Put(directory, MigrationFile(e.file, version, statements));
          if version <= fromSchema {
            var was := Find(before, e.path);
            if was.None? {
              return Err("git rev-parse failed");
            }
            if was.value.blob != e.blob {
              reasons := reasons + [DeployedChanged(e.path)];
            }
          }
      }
    }
    assert after[..|after|] == after;
    r := Ok((directory, reasons));
  }

  /** The three guards on a classification, the last two of which the first already implies. */
  predicate Refused(c: Classification) {
    || !Automatic(c.kind)
    || c.hasUnclassified
    || exists d :: d in c.decisions && !Automatic(d.kind)
  }

  /** A file passes the guards exactly when every one of its statements is additive or replaces a routine. */
  lemma GuardsAreOne(decisions: seq<Decision>)
    ensures var sorted := Sorted(NotAdditive(decisions));
      && (Automatic(KindOf(decisions)) <==> forall d :: d in decisions ==> Automatic(d.kind))
      && ((exists d :: d in sorted && d.kind == Unclassified) ==> !Automatic(KindOf(decisions)))
      && ((exists d :: d in sorted && !Automatic(d.kind)) ==> !Automatic(KindOf(decisions)))
  {
    KindIsMostSevere(decisions);
    forall d | d in Sorted(NotAdditive(decisions))
      ensures d in decisions
    {
      SortedHas(NotAdditive(decisions), d);
      NotAdditiveHas(decisions, d);
    }
  }

  lemma GuardsOnFile(c: Classification, decisions: seq<Decision>)
    requires c.decisions == Sorted(NotAdditive(decisions))
    requires c.kind == if c.decisions == [] then Additive else c.decisions[0].kind
    requires c.hasUnclassified <==> exists d :: d in c.decisions && d.kind == Unclassified
    ensures !Refused(c) <==> forall d :: d in decisions ==> Automatic(d.kind)
  {
    GuardsAreOne(decisions);
  }

  method RefuseFile(directory: seq<MigrationFile>, file: MigrationFile) returns (refused: bool, kind: Class)
    ensures !refused <==> forall d :: d in FileDecisions(directory, file, file.version - 1) ==> Automatic(d.kind)
  {
    var c := ClassifyMigration(directory, file, file.version - 1);
    ghost var decisions := FileDecisions(directory, file, file.version - 1);
    GuardsOnFile(c, decisions);
    refused, kind := Refused(c), c.kind;
  }

  method CheckFile(i: Input, directory: seq<MigrationFile>, e: TreeEntry) returns (reasons: seq<Reason>)
    requires directory == Written([], i.after) && e.kind.Numbered?
    ensures reasons == [] <==> forall d :: d in DecisionsOn(i, e) ==> Automatic(d.kind)
  {
    var refused, kind := RefuseFile(directory, MigrationFile(e.file, e.kind.version, e.kind.statements));
    reasons := if refused then [ReviewedMigration(e.file, kind)] else [];
  }

  method CheckVersion(i: Input, directory: seq<MigrationFile>, version: nat) returns (r: Result<seq<Reason>>)
    requires directory == Written([], i.after)
    ensures r.Err? <==> Misread(i, version)
    ensures r.Ok? ==> (r.value == [] <==> VersionSafe(i, version))
  {
    var entries := Matching(i.after, version);
    if |entries| != 1 {
      return Ok([MissingOrDuplicate(version)]);
    }
    if entries[0].kind.Misnamed? {
      return Err("not a migration file name");
    }
    var reasons := CheckFile(i, directory, entries[0]);
    r := Ok(reasons);
  }

  method CheckVersions(i: Input, directory: seq<MigrationFile>) returns (r: Result<seq<Reason>>)
    requires directory == Written([], i.after)
    ensures r.Err? <==> exists version :: i.fromSchema < version <= i.toSchema && Misread(i, version)
    ensures r.Ok? ==>
      (r.value == [] <==> forall version :: i.fromSchema < version <= i.toSchema ==> VersionSafe(i, version))
  {
    var reasons: seq<Reason> := [];
    var version := i.fromSchema + 1;
    while version <= i.toSchema
      invariant i.fromSchema < version
      invariant i.fromSchema < i.toSchema ==> version <= i.toSchema + 1
      invariant forall v :: i.fromSchema < v < version ==> !Misread(i, v)
      invariant reasons == [] <==> forall v :: i.fromSchema < v < version && v <= i.toSchema ==> VersionSafe(i, v)
    {
      var more := CheckVersion(i, directory, version);
      if more.Err? {
        return Err(more.message);
      }
      reasons := reasons + more.value;
      version := version + 1;
    }
    r := Ok(reasons);
  }

  lemma TreeIsFine(i: Input)
    ensures (forall e :: e in i.after ==>
      e.kind.Numbered? && (e.kind.version <= i.fromSchema ==> Unchanged(i.before, e)))
       <==> (forall e :: e in i.after ==> e.kind.Numbered?)
            && (forall e :: e in i.after && Deployed(e, i.fromSchema) ==> Unchanged(i.before, e))
  {
  }

  /** The release decision, or no decision when the script stops. */
  method PlanRelease(i: Input) returns (r: Result<Plan>)
    requires OneEntryPerPath(i.before)
    ensures r.Err? <==> Stops(i)
    ensures r.Ok? ==> (r.value.reasons == [] <==> NeedsNobody(i))
    ensures r.Ok? ==> (r.value.decision == Held <==> i.held)
    ensures r.Ok? ==> (r.value.decision == Maintenance <==> !i.held && NeedsNobody(i) && i.fromSchema < i.toSchema)
    ensures r.Ok? ==> (r.value.decision == Application <==> !i.held && NeedsNobody(i) && i.fromSchema == i.toSchema)
  {
    var reasons := CheckPaths(i.changed);
    if i.toSchema < i.fromSchema {
      reasons := reasons + [SchemaRollback];
    }
    var removed := CheckRemoved(i.before, i.after, i.fromSchema);
    var written := WriteMigrations(i.before, i.after, i.fromSchema);
    if written.Err? {
      return Err(written.message);
    }
    var versions := CheckVersions(i, written.value.0);
    if versions.Err? {
      return Err(versions.message);
    }
    TreeIsFine(i);
    reasons := reasons + removed + written.value.1 + versions.value;
    var decision := if i.held then Held
                    else if reasons != [] then Reviewed
                    else if i.fromSchema < i.toSchema then Maintenance
                    else Application;
    r := Ok(Plan(decision, reasons));
  }

  // -------------------------------------------------------------------- safety

  /** An automatic schema release brings exactly one migration file for every new version. */
  lemma OneFilePerVersion(i: Input, version: nat)
    requires NeedsNobody(i) && i.fromSchema < version <= i.toSchema
    ensures exists e :: (e in i.after && e.kind.Numbered? && e.kind.version == version
                         && Matching(i.after, version) == [e])
  {
    assert VersionSafe(i, version);
    var e := Matching(i.after, version)[0];
    assert e in Matching(i.after, version);
  }

  /** Every DO block of `s` could be opened, and everything inside is additive or replaces a routine. */
  ghost predicate HarmlessThroughout(s: Stmt, c: Context) {
    Recognised(s, c, 0) && forall leaf :: leaf in Leaves(s) ==> Automatic(Judge(leaf, c).kind)
  }

  function ContextOf(i: Input, e: TreeEntry): Context
    requires e.kind.Numbered?
  {
    Context(ObjectsAt(Written([], i.after), e.kind.version - 1), Readded(e.kind.statements))
  }

  /**
   * No statement of an automatic schema release's new files, however deep in DO blocks, is decided
   * anything but additive or a replaced routine.
   */
  lemma AutomaticReleaseIsSafe(i: Input, e: TreeEntry, s: Stmt)
    requires NeedsNobody(i) && e in i.after && e.kind.Numbered? && i.fromSchema < e.kind.version <= i.toSchema
    requires s in e.kind.statements
    ensures HarmlessThroughout(s, ContextOf(i, e))
  {
    NewFileIsAutomatic(i, e);
    StatementIsHarmless(e.kind.statements, ContextOf(i, e), s);
  }

  lemma NewFileIsAutomatic(i: Input, e: TreeEntry)
    requires NeedsNobody(i) && e in i.after && e.kind.Numbered? && i.fromSchema < e.kind.version <= i.toSchema
    ensures forall d :: d in DecideAll(e.kind.statements, ContextOf(i, e), 0) ==> Automatic(d.kind)
  {
    assert VersionSafe(i, e.kind.version);
    assert e in Matching(i.after, e.kind.version);
    assert DecisionsOn(i, e) == DecideAll(e.kind.statements, ContextOf(i, e), 0);
  }

  lemma StatementIsHarmless(statements: seq<Stmt>, c: Context, s: Stmt)
    requires s in statements && forall d :: d in DecideAll(statements, c, 0) ==> Automatic(d.kind)
    ensures HarmlessThroughout(s, c)
  {
    DecideAllHas(statements, c, 0, Decide(s, c, 0));
    ClassOfNested(s, c, 0);
  }

  /** The tree holds a deployed migration at this path with these contents. */
  ghost predicate HoldsDeployed(tree: seq<TreeEntry>, schema: nat, path: string, blob: string) {
    exists e :: e in tree && Deployed(e, schema) && e.path == path && e.blob == blob
  }

  /** The deployed migrations of the two commits are the same files with the same contents. */
  lemma DeployedRangeUnchanged(i: Input, path: string, blob: string)
    requires NeedsNobody(i) && OneEntryPerPath(i.before)
    requires forall x, y :: x in i.before && y in i.after && x.path == y.path ==> NumberOf(x) == NumberOf(y)
    ensures HoldsDeployed(i.before, i.fromSchema, path, blob) <==> HoldsDeployed(i.after, i.fromSchema, path, blob)
  {
    if e :| e in i.before && Deployed(e, i.fromSchema) && e.path == path && e.blob == blob {
      var now :| now in i.after && now.path == path;
      assert Deployed(now, i.fromSchema);
      var was :| was in i.before && was.path == now.path && was.blob == now.blob;
      assert was == e;
    }
    if e :| e in i.after && Deployed(e, i.fromSchema) && e.path == path && e.blob == blob {
      var was :| was in i.before && was.path == e.path && was.blob == e.blob;
      assert Deployed(was, i.fromSchema);
    }
  }

  // -------------------------------------------------- what an automatic release drops

  /**
   * An automatic release removes a routine, index, view, type, sequence or table that was there
   * exactly when a statement of one of its files, however deep in DO blocks, drops the name behind
   * another of its list, or first while the picture of what exists does not know it, and none that
   * runs later creates it again.
   */
  lemma AutomaticReleaseDropsExactly(i: Input, e: TreeEntry, pool: Pool, name: string)
    requires NeedsNobody(i) && e in i.after && e.kind.Numbered? && i.fromSchema < e.kind.version <= i.toSchema
    ensures !Survives(e.kind.statements, pool, name)
       <==> DroppedUnjudged(e.kind.statements, ContextOf(i, e).objects, pool, name)
  {
    var statements, c := e.kind.statements, ContextOf(i, e);
    forall leaf | leaf in LeavesOf(statements)
      ensures Judge(leaf, c).kind != Destructive
    {
      LeavesOfHas(statements, leaf);
      var k :| 0 <= k < |statements| && leaf in Leaves(statements[k]);
      AutomaticReleaseIsSafe(i, e, statements[k]);
    }
    DroppedExactlyUnjudged(statements, c, pool, name);
  }

  /** In particular no automatic release drops a table. */
  lemma AutomaticReleaseKeepsTables(i: Input, e: TreeEntry, table: string)
    requires NeedsNobody(i) && e in i.after && e.kind.Numbered? && i.fromSchema < e.kind.version <= i.toSchema
    ensures Survives(e.kind.statements, Tables, table)
  {
    AutomaticReleaseDropsExactly(i, e, Tables, table);
  }
}
