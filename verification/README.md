# Verified models of the upgrade, release and review-window tools

This project keeps Dafny 4.11 models of the parts of the repository whose correctness spans many
functions or many processes, and proves what those parts are for. `dafny verify dfyconfig.toml`
checks all of it.

* **Statement splitter** (`tools/upgrade/sql.ts`): `SqlLexer` defines what a migration file means
  with an automaton that reads one character at a time; `SqlScan` holds the index-driven scanner,
  loop for loop, against it. `SqlQuoting` says which characters quote and comment, and `Words` what the
  normalized form is.
* **Privilege replay and its gate** (`tools/upgrade/grants.ts`, `sequenceGrants.ts`): `Replay` is the
  nested fold over a role, table and privilege matrix, `ReplayMeaning` and `ReplayByStatement` say
  what it means, `AclLines` reads and writes `role | table | privilege` lines, `SequenceGrants` and
  `PrivilegeGate` are the check itself and the theorem it exists for: no access change on a table
  the baseline knew passes without a declaration. `PrivilegeGateLimits` says what a clean check
  means for a new table, which losses pass undeclared, and when the check reports a difference
  although access is right. `RevokeMeaning` and `SequenceMeaning` say what is taken and given on tables,
  columns and sequences, and `PrivilegeGateFields` reads a clean check off the lines, entries and
  statements themselves.
* **Migration classifier and release decision** (`tools/upgrade/classify.ts`,
  `tools/ci/release-plan.ts`): `Classify` and `ReleasePlan` are the folds, decisions and loops;
  `ClassifyMeaning` says how classes combine and what a file drops when it runs, and
  `ReleaseHiddenDrop` holds automatic releases that drop what is there. `Database` is a small database
  with what each statement can do to it, `DatabaseRuns` finds out which statements can do what,
  `ClassifyEffects` proves that the class is exactly that, and `ReleaseEffects` and `ReleasePaths` what an
  automatic release can change and which paths it may touch.
* **Review-window lease** (`apps/web/scripts/localdemoReviewWindow.ts` and its Core): `ReviewLease`
  is a step relation over the shared directory, the service manager and any number of starters,
  supervisors, stoppers and detached finalizers, with an inductive invariant; `ReviewLeaseSafety`
  proves the protocol's promises over every run, crash and interleaving, and `ReviewLeaseMarker`
  exhibits the one trace a stale control can leave. `ReviewLeaseRetry` says when a failed attempt can be
  retried, `ReviewLeaseFinal` when nobody can end the lease any more, and `ReviewLeaseChecks` what each
  process has seen before it acts.
* **Local diagnostic teardown** (`tools/upgrade/localDiagnostic.ts`, `localDiagnosticCleanup.ts`):
  `Teardown` is a step relation for the controller and any number of cleanup and status commands;
  `TeardownRecovery` says when a later cleanup can finish and when none can, `TeardownRaces` when a
  report of `cleaned` stands, `TeardownReports` what each report tells, and `TeardownChecks` what a
  recovery has seen before it acts and reports.
* **Lock sampler** (`tools/upgrade/locks.ts`) and **snapshot comparison**
  (`tools/upgrade/snapshot.ts`): `LockSampler` and `Snapshot`.

`Text` and `Lists` hold the string and list helpers, `LastEvent` the generic fact that the last setting or clearing
event decides a yes-or-no fact; the replay and the object fold both rest on it.

## What the proofs found

* An automatic release can drop a routine, index, view, type or sequence that is there. A `DROP` is
  judged by its first name alone, while all its names are dropped (`AutomaticReleaseCanDrop`,
  `LaterRoutineStaysListed`); and DO blocks are opened to be judged but not folded into the picture of
  what exists (`DropInBlockStaysListed`), so a name made or dropped in one is judged by a stale
  picture. `AutomaticReleaseDropsExactly` says exactly which names go when the files run, DO blocks
  and whole lists included; `AutomaticReleaseKeepsTables` says that no table does.
* A statement's class is exactly the strongest thing it can do to the database, but for what the source
  does not look at (`ClassExactly`, with the exceptions as `BehindUnknown`, `BareDrop`, `JudgedElsewhere`
  and `ReadRight`): the table of a trigger, the objects of a GRANT behind the first word, the names of a
  `DROP` behind the first, and a column dropped without the optional word `COLUMN`. So an automatic
  release can put a trigger on a table that was there, or change rights on it
  (`AutomaticReleaseCanChange`); `AutomaticReleaseChangesExactly` says exactly which places it can change,
  and `AutomaticReleaseKeepsTableBodies` that columns, rows, constraints and owned sequences are not among
  them.
* Statements added to a file can lower its class (`AddingBackLowers`): exactly when the file was
  destructive, the added statements are not, and every destructive leaf of the file is an
  `ALTER TABLE` that drops no column and only constraints the longer file adds back
  (`AppendingLowersExactly`).
* A clean privilege check does not mean the runtime reaches a new table: a grant that is later revoked
  still counts as naming it (`CleanWithoutAccess`). What the runtime does hold there is decided by the
  last event about each privilege (`NewTableHolds`).
* A gain of access always needs a declared grant; only a loss is excused by a `CREATE TABLE` or
  `DROP TABLE` of the range (`NoLaundering`). That happens exactly when the last event about the
  privilege is the table's creation or drop (`LossExactly`), and a table dropped and made again does
  lose access with a clean check and no declaration (`RecreationLosesUndeclared`).
* The replay keeps a column grant beside a later whole-table grant (`BothGrantsStay`), while the
  reading of the server drops it; then the check reports the pair although access is right, and names
  exactly those column grants as missing (`RightAccessReported`).
* `stop` on an old lease can leave its stop marker in a newer lease (`StaleMarkerCanRemain`), and a
  finalization attempt that dies right after it took its lock in a newer lease leaves the lock there
  (`StaleLockIsRemoved`). Neither touches anything of the newer lease that is not named by its own
  label (`StaleControlsAreHarmless`).
* A failure recorded after a clean teardown can be retried exactly when the finalizer had read its own
  pid in the receipt (`FailureRetriedExactly`). One that reads at its deadline, just before its parent writes the pid, writes
  a receipt without it; its own last check then fails, the lock stays, and no stop command ever gets
  further (`FailureCanBeStuck`). After an unclean teardown the receipt that records the service as removed
  is the last: no run ever changes it or removes the lease (`RemovalIsFinal`).
* A diagnostic controller that dies before it records the witness leaves its key for good
  (`EarlyDeathKeepsKey`), and a recovery cut off between removing the witness and reporting can never be
  reported `cleaned` (`LostReport`, `WithoutWitnessForGood`). A cleanup command begun earlier can
  overwrite `cleaned` with `cleanup_unknown` for good (`SecondReportOverwrites`), and so can a
  `status` or `verify` command that had read `running` with `runtime_unknown`
  (`StatusCommandOverwrites`). `CleanedStandsIffSettled` says exactly when the report stands.
* A comment in `shapeSnapshot` says a column reordering is worth seeing
  (`tools/upgrade/snapshot.ts:178`), but `diffRendered` matches by name and cannot see one
  (`OrderIsUnseen`, `SwappedColumnsAreUnseen`). The model follows the code.
* The lock sampler understates a hold exactly when every longest block has a repeated sample number
  inside it (`RunNeverOverstates`); overlapping samples share numbers, since the number is taken
  before the query is sent, and samples that come back in turn are reported exactly
  (`SamplingInTurnIsExact`).

## Model

| member | source | states |
|---|---|---|
| SqlScan.Scan | tools/upgrade/sql.ts:30-124 | the index-driven scanner returns exactly the statements the character automaton defines, and terminates on every input, unterminated constructs included |
| SqlScan.SkipLineComment | tools/upgrade/sql.ts:55-61 | a line comment is taken up to, not including, its newline, all of it as comment |
| SqlScan.SkipBlockComment | tools/upgrade/sql.ts:62-74 | a nested block comment is taken to its matching end or the end of the file, all of it as comment, with its newlines counted |
| SqlScan.SkipQuoted | tools/upgrade/sql.ts:75-92 | a quoted literal or identifier is taken to its closing quote, doubled quotes included, as the automaton reads it |
| SqlScan.SkipDollarQuoted | tools/upgrade/sql.ts:93-105 | a dollar-quoted body is taken to the first repetition of its tag or the end of the file |
| SqlScan.TakeOne | tools/upgrade/sql.ts:46-117 | one turn of the loop ends between two tokens of the automaton and takes exactly the characters it passed |
| SqlLexer.CutsAtTopLevelSemicolons | tools/upgrade/sql.ts:39-44 | the file is cut after exactly the semicolons outside comments, quotes and dollar quotes, and the raw stretches join back into the whole file |
| SqlLexer.DroppedIffNothingSolid | tools/upgrade/sql.ts:39-44 | a stretch is dropped if and only if it holds nothing but white space and comments |
| SqlLexer.OnlyTheLastIsDropped | tools/upgrade/sql.ts:106-118 | a stretch that ends at a top-level semicolon is always kept |
| SqlLexer.LineOfFirstSolid | tools/upgrade/sql.ts:49-53 | a statement's line is one more than the newlines before its first character that is neither blank nor comment |
| SqlLexer.SplittingIsLocal | tools/upgrade/sql.ts:106-112 | a file cut at a top-level semicolon splits into the statements of its halves, the second's lines shifted |
| SqlLexer.RescanIsStable | tools/upgrade/sql.ts:122-124 | scanning a statement's own text again yields that one statement, with the same text and normalized form |
| SqlQuoting.DollarQuoteIsOneToken | tools/upgrade/sql.ts:93-105 | in plain code a delimiter of two dollars with nothing, or a name of letters, underscores, characters from U+0080 to U+FFFF and later digits, between them takes everything up to its first repetition, or the rest of the file, without a cut |
| SqlQuoting.DollarOpensNothing | tools/upgrade/sql.ts:93-105 | a dollar and a name that no second dollar follows open nothing: the next character is read as in plain code, and `$1` is plain |
| SqlQuoting.DollarBodyIsOneStatement | tools/upgrade/sql.ts:93-105 | a statement around a dollar-quoted body is one statement with its text whole, whatever the body holds |
| SqlQuoting.QuoteHoldsNoCut | tools/upgrade/sql.ts:75-92 | a single or double quote takes everything up to the next of its kind |
| SqlQuoting.DashesComment | tools/upgrade/sql.ts:55-61 | two dashes make a comment of everything before the next newline |
| SqlQuoting.StarComment | tools/upgrade/sql.ts:62-74 | a slash and a star make a comment of everything to the next star and slash, if none opens within |
| SqlQuoting.OneCharacter | tools/upgrade/sql.ts:49-53 | a file of one character holds a statement iff that character is not white space of ECMAScript |
| Words.NormalizedIsWords | tools/upgrade/sql.ts:39-44 | the normalized form is the words of the code, in order, with one space between them |
| LastEvent.LastEventWins | tools/upgrade/grants.ts:173-248 | a fact folded over events holds at the end iff the last event that says anything sets it, or none does and it held at the start |
| Replay.ReplayRange | tools/upgrade/grants.ts:173-248 | the nested loops over files, statements, roles, tables and privileges compute the range's events applied in order, the explicit runtime grants and the complete statement log |
| Replay.ReplayStatement | tools/upgrade/grants.ts:192-245 | one statement's effect on the matrix, the present tables, the runtime's named tables and the log |
| Replay.ReplayGrant | tools/upgrade/grants.ts:226-244 | a GRANT or REVOKE visits every compared role, table and privilege once, in that order |
| Replay.ReplayPrivileges | tools/upgrade/grants.ts:233-242 | the innermost loop: a grant adds, a revoke deletes the privilege and the column grants under it |
| ReplayMeaning.LastEventDecides | tools/upgrade/grants.ts:173-248 | a role holds a privilege at the end iff the last event about it is a grant, or there was none and it held it at the start; clears are create, drop, and revokes that cover it |
| ReplayMeaning.ReplayComposes | tools/upgrade/grants.ts:173-187 | replaying to the end is replaying to any cut and then on from the matrix and tables that left |
| ReplayMeaning.SameHeldAfter | tools/upgrade/grants.ts:173-248 | the replay's result depends on the held privileges of the start only, not on empty sets in it |
| ReplayMeaning.EveryEventLogged | tools/upgrade/grants.ts:230-232 | no grant or revoke acts on the matrix without a log entry naming its verb, role, table and privilege |
| ReplayMeaning.ChangesAreLogged | tools/upgrade/grants.ts:173-248 | a privilege gained over the replay has a logged GRANT naming it; one lost has a logged REVOKE covering it, or its table was created or dropped |
| ReplayByStatement.ReplayByStatements | tools/upgrade/grants.ts:226-244 | the loops refine the reading of each statement as a whole, one privilege at a time, whatever order roles and tables are visited in |
| ReplayByStatement.StatementActs | tools/upgrade/grants.ts:192-245 | the events of one statement do to one privilege exactly what the statement says |
| ReplayByStatement.BaselineCutAnywhere | tools/upgrade/grants.ts:261-266 | a baseline taken at any version, its tables in any order, yields the same expectation as replaying from nothing |
| ReplayByStatement.RevokedStillNamed | tools/upgrade/grants.ts:227-229 | a grant taken back leaves no privilege behind and still counts as an explicit runtime grant |
| RevokeMeaning.RevokeTakesExactly | tools/upgrade/grants.ts:233-242 | a REVOKE at the end of the range takes from its roles and tables exactly the privileges it names and those whose text before the first parenthesis it names |
| RevokeMeaning.RevokeOne | tools/upgrade/grants.ts:240-241 | revoking a whole-table privilege leaves nothing under it and everything else; revoking a column grant takes that grant alone |
| RevokeMeaning.UpdateAndDetail | tools/upgrade/grants.ts:240-241 | REVOKE UPDATE takes UPDATE(detail) too and leaves SELECT; REVOKE UPDATE(detail) leaves UPDATE |
| RevokeMeaning.GrantGivesExactly | tools/upgrade/grants.ts:233-242 | a GRANT at the end of the range gives its roles what it names on its tables, and takes nothing |
| RevokeMeaning.PresentIffLastCreated | tools/upgrade/grants.ts:192-219 | ON ALL TABLES means the tables whose last CREATE or DROP so far is a CREATE, or that were there and have none |
| AclLines.LineReadsBack | tools/upgrade/grants.ts:397-410 | a line parses back to the grantee, object and privilege it was made of iff none of them disturbs a separator |
| AclLines.NamesArePlain | tools/upgrade/grants.ts:378-394 | lower-case identifiers never disturb a separator |
| PrivilegeGate.BaselineMatrix | tools/upgrade/grants.ts:397-410 | the matrix the lines describe, or a refusal iff some line has no three parts |
| PrivilegeGate.MatrixHolds | tools/upgrade/grants.ts:397-410 | the matrix read from lines holds exactly the privileges some line parses to |
| PrivilegeGate.CaptureLines | tools/upgrade/grants.ts:378-394 | one line for each held privilege, and no other line |
| AclLines.ParsedIsPlain | tools/upgrade/grants.ts:397-410 | whatever a line parses to disturbs no separator |
| PrivilegeGate.CapturedReadsBack | tools/upgrade/grants.ts:378-410 | round trip: captured lines are always readable, and read back as exactly the privileges they were captured from iff no name among those disturbs a separator |
| PrivilegeGate.CompareGrants | tools/upgrade/grants.ts:688-700 | reports, for the compared roles and the given tables, exactly the pairs whose sets differ, with both set differences |
| PrivilegeGate.DifferencesPatch | tools/upgrade/grants.ts:688-700 | the reported differences are an exact edit script from the declared to the actual privileges |
| PrivilegeGate.CompareAcl | tools/upgrade/grants.ts:785-818 | every lost line is a finding; a gained line is one iff its object was known to the baseline |
| PrivilegeGate.DeclaredDelta | tools/upgrade/grants.ts:612-628 | the union of what one migration's entries declare for a table and role |
| PrivilegeGate.RuntimeAccessNoneTables | tools/upgrade/grants.ts:602-609 | exactly the tables an entry of the range excuses |
| PrivilegeGate.CheckNewTables | tools/upgrade/grants.ts:863-879 | reports exactly the new tables that are neither excused nor explicitly granted |
| PrivilegeGate.CheckStatements | tools/upgrade/grants.ts:881-903 | reports exactly the logged statements on known tables with an undeclared privilege, with all such privileges |
| PrivilegeGate.CheckPrivileges | tools/upgrade/grants.ts:820-903 | the check reports exactly the findings its rules describe, and refuses exactly the unreadable inputs |
| PrivilegeGate.NoLaundering | tools/upgrade/grants.ts:16-70 | if the check is clean, every privilege gained on a baseline table is a declared grant of some migration in the range, and every one lost is covered by a declared revoke or its table was created or dropped |
| PrivilegeGate.NewTablesAreReviewed | tools/upgrade/grants.ts:863-879 | if the check is clean, every new table is excused or named for the runtime by a migration of the range |
| PrivilegeGateFields.CleanSettlesLists | tools/upgrade/grants.ts:785-861 | if no line is reported, each of the PUBLIC, sequence, routine and schema lists keeps every committed line, and gains none on an object one of its committed lines is about |
| PrivilegeGateFields.ListsSettledExactly | tools/upgrade/grants.ts:785-861 | where every line is about an object that is also all that is asked: one line lost or so gained in any of the four lists is a finding, and nothing else in them is |
| PrivilegeGateFields.ChangedLinesAreDeclared | tools/upgrade/grants.ts:881-903 | if the check is clean, a table line gained on a committed table stands in the `grant` of an entry of the range, one lost in a `revoke`, by its own name or its whole-table privilege's, or a migration creates or drops the table |
| PrivilegeGateFields.NewTablesByName | tools/upgrade/grants.ts:863-879 | if the check is clean, a new table stands in a `runtimeAccessNone` of the range, or a migration of it grants on the table by name to `app_runtime` |
| PrivilegeGateFields.RangeHas | tools/upgrade/grants.ts:180-190 | the range holds exactly the statements of the migrations numbered above the one version and up to the other |
| PrivilegeGateLimits.LiveIsLastEvent | tools/upgrade/grants.ts:833-850 | if the check is clean, a compared role holds a privilege on any compared table iff the last event of the range about it is a grant, or there is none and the baseline holds it |
| PrivilegeGateLimits.NewTableHolds | tools/upgrade/grants.ts:863-879 | if the check is clean, a new unexcused table is named by a migration, and the runtime holds exactly the privileges on it whose last event is a grant |
| PrivilegeGateLimits.CleanWithoutAccess | tools/upgrade/grants.ts:227-229 | a clean case, for any table and privilege, whose new unexcused table no role holds anything on |
| PrivilegeGateLimits.LossExactly | tools/upgrade/grants.ts:881-903 | if the check is clean, a privilege held on a baseline table is lost iff the last event about it takes it away, and that event is a declared revoke unless it is the table's creation or drop |
| PrivilegeGateLimits.RecreationLosesUndeclared | tools/upgrade/grants.ts:192-224 | a clean case in which a baseline table is dropped and made again and a privilege on it is lost with nothing declared |
| PrivilegeGateLimits.RightAccessReported | tools/upgrade/grants.ts:667-700 | with the access the replay expects on the server, the check reports the pair iff the replay expects a column grant beside its whole-table grant, and misses exactly those |
| PrivilegeGateLimits.BothGrantsStay | tools/upgrade/grants.ts:233-242 | a grant on a column and then on the whole table leave both in the expectation |
| PrivilegeGate.SequenceChecksAgree | tools/upgrade/grants.ts:853-859 | if both sequence checks are silent, lines about known sequences are those of the baseline, rights on named ones are the replayed expectation, and no replay nets a change to a known sequence |
| SequenceGrants.DeclaredSequenceGrantDifferences | tools/upgrade/sequenceGrants.ts:14-53 | reports exactly the named sequences and roles whose expected and live rights differ, or refuses exactly when a right is unsupported |
| SequenceGrants.ExpectedSequences | tools/upgrade/sequenceGrants.ts:18-42 | the expected lines and the named sequences of the range, or a refusal |
| SequenceGrants.ExpandRights | tools/upgrade/sequenceGrants.ts:26-31 | ALL expands to the three rights; an unknown right is refused |
| SequenceMeaning.LastSequenceEventDecides | tools/upgrade/sequenceGrants.ts:18-42 | a right on a sequence is expected iff the last statement that names role, sequence and right, by itself or under ALL, grants it, or there is none and the baseline has its line |
| SequenceMeaning.LiveSequenceIsLastEvent | tools/upgrade/sequenceGrants.ts:43-53 | if the check is clean, a compared role holds a right on a sequence the range names iff the last statement about it grants it, or none speaks of it and the baseline has it |
| SequenceMeaning.SupportedIff | tools/upgrade/sequenceGrants.ts:26-31 | the range is refused iff some sequence statement names a right that is not SELECT, UPDATE or USAGE |
| Classify.ObjectStore.Put | tools/upgrade/classify.ts:162-258 | replacing one pool leaves the other five as they were |
| Classify.ObjectStore.Add | tools/upgrade/classify.ts:152-154 | a non-empty name not yet listed is appended to its pool, and nothing else changes |
| Classify.ObjectStore.Remove | tools/upgrade/classify.ts:156-159 | each name's first occurrence leaves its pool, and nothing else changes |
| Classify.ObjectStore.Apply | tools/upgrade/classify.ts:162-235 | one statement folded into the picture of what exists |
| Classify.ReadObjects | tools/upgrade/classify.ts:237-258 | the picture after the statements of all migrations up to a version, in file order |
| Classify.ReadReadded | tools/upgrade/classify.ts:139-150 | the constraints the file's top-level ALTER TABLEs add, with their tables |
| Classify.Worst | tools/upgrade/classify.ts:331-332 | one of the decisions, at least as severe as every other |
| Classify.ClassifyMigration | tools/upgrade/classify.ts:565-594 | the printed decisions, the class, the replaced routines and the unclassified flag of a file on top of the earlier ones |
| ClassifyMeaning.KindIsMostSevere | tools/upgrade/classify.ts:574-586 | a file's class is exactly the most severe decision over all its statements |
| ClassifyMeaning.SortedIsStablePermutation | tools/upgrade/classify.ts:582 | the sorted decisions are a permutation in severity order that keeps the order within a class |
| ClassifyMeaning.OrderDoesNotMatter | tools/upgrade/classify.ts:565-594 | permuting or repeating a file's statements does not change its class |
| ClassifyMeaning.ClassOfNested | tools/upgrade/classify.ts:321-335 | a statement's class is the most severe of its innermost statements iff all are recognised and every DO block on the way can be opened, and unclassified otherwise |
| ClassifyMeaning.ExistsIffLastCreated | tools/upgrade/classify.ts:152-258 | pools are duplicate-free, and a name exists at a version iff its last create-or-drop mention up to it is a create |
| ClassifyMeaning.DroppingWhatExistsIsDestructive | tools/upgrade/classify.ts:374-396 | a top-level DROP whose first name's last mention was a create makes the file destructive |
| ClassifyMeaning.DroppedExactlyUnseen | tools/upgrade/classify.ts:156-258 | over a file without a destructive statement the classifier's own picture loses exactly the names a top-level statement drops behind the first of a list and none creates again |
| ClassifyMeaning.DroppedExactlyUnjudged | tools/upgrade/classify.ts:321-396 | a file with nothing destructive in it, however deep, drops when it runs exactly the names some statement, in a DO block or not, drops later in a list or first while the picture does not know it, and none that runs later creates again |
| ClassifyMeaning.PictureFollows | tools/upgrade/classify.ts:162-235 | without DO blocks and longer routine lists the picture loses a name iff running the file does |
| ClassifyMeaning.MoreReaddedExcuses | tools/upgrade/classify.ts:346-358 | more constraints added back change no decision but a destructive one, and never make or unmake an unclassified one, however deep in DO blocks |
| ClassifyMeaning.AppendingLowersExactly | tools/upgrade/classify.ts:346-358 | added statements lower a file's class iff the file was destructive, they are not, and every destructive leaf of the file drops no column and only constraints that it or they add back |
| ClassifyMeaning.AppendingCannotLower | tools/upgrade/classify.ts:565-594 | statements that add no constraint of their own never lower a file's class |
| ClassifyMeaning.AddingBackLowers | tools/upgrade/classify.ts:346-358 | adding a dropped constraint back lowers a destructive file to touches-existing |
| ClassifyMeaning.RoutinesReplacedHas | tools/upgrade/classify.ts:572-581 | the routines a file replaces are exactly those its decisions name, each once |
| ClassifyEffects.DestructiveExactly | tools/upgrade/classify.ts:337-396 | a statement is destructive iff it can take away a table, a column, every row of a table, a constraint the file does not add back, or an object that was there, except behind an unknown first name or without the word COLUMN; or it is a DROP TABLE of nothing |
| ClassifyEffects.UnclassifiedExactly | tools/upgrade/classify.ts:321-335 | a statement is unclassified iff anything can come of it |
| ClassifyEffects.TouchesExactly | tools/upgrade/classify.ts:421-522 | a statement touches what exists iff it can take rows or constraints, reread a stored view, or change, grants apart, what was there, takes nothing the source sees, and is not judged by a name that is no table's |
| ClassifyEffects.PrivilegeExactly | tools/upgrade/classify.ts:525-543 | a statement is a privilege iff it can change a role, the schema's grants or those of a table that was there, as long as the word read off its target is such a table iff one of its tables is |
| ClassifyEffects.ReplacesExactly | tools/upgrade/classify.ts:398-418 | a statement replaces a routine iff it can redefine one that was there, and that is the one the decision names |
| ClassifyEffects.ClassExactly | tools/upgrade/classify.ts:311-563 | each of the six classes is given to exactly the statements that can do to the database what it says |
| ClassifyEffects.FileClassExactly | tools/upgrade/classify.ts:565-594 | a file's class is exactly the strongest of what its statements can do, however deep in DO blocks, in the order destructive, unread, touching, privilege, replaced routine, additive |
| DatabaseRuns.ChangesExactly | tools/upgrade/classify.ts:311-563 | the places of the database a statement can change when it runs, each with a run that changes it |
| DatabaseRuns.DropsExactly | tools/upgrade/classify.ts:162-235 | the names a statement is read to drop are exactly those that can be gone once it has run, what a table or column takes along apart |
| DatabaseRuns.CreatesExactly | tools/upgrade/classify.ts:162-235 | the name a statement is read to create is exactly the one that can be there afterwards and was not, an unnamed index apart |
| ReleasePlan.PlanRelease | tools/ci/release-plan.ts:30-66 | held iff asked for; otherwise maintenance or application iff nothing needs a person, by whether the schema moves; stops iff a deployed file cannot be compared or a version's file is misnamed |
| ReleasePlan.CheckPaths | tools/ci/release-plan.ts:30-38 | no reason iff every changed path is the schema file, a migration, or ordinary source by the script's patterns |
| ReleasePlan.FineIsOrdinarySource | tools/ci/release-plan.ts:31-38 | a path needs nobody iff it is source and neither of the host image nor infrastructure or a guard |
| ReleasePaths.PathFineExactly | tools/ci/release-plan.ts:30-38 | by path: which changes ask for nobody, with every guarded file and directory named |
| ReleasePaths.GuardedPathNeedsAPerson | tools/ci/release-plan.ts:30-38 | a release that changes a guarded path, or one that is not ordinary, is never automatic |
| ReleasePlan.CheckRemoved | tools/ci/release-plan.ts:46 | a reason iff some deployed migration is gone |
| ReleasePlan.WriteMigrations | tools/ci/release-plan.ts:47-55 | writes the new commit's migrations; a reason iff one is misnamed or a deployed one changed |
| ReleasePlan.CheckVersions | tools/ci/release-plan.ts:56-64 | no reason iff every new version has exactly one file and its statements are all additive or replace a routine |
| ReleasePlan.GuardsAreOne | tools/ci/release-plan.ts:63 | the unclassified and decision-kind guards are implied by the class guard |
| ReleasePlan.OneFilePerVersion | tools/ci/release-plan.ts:56-58 | an automatic schema release brings exactly one migration file for every new version |
| ReleasePlan.AutomaticReleaseIsSafe | tools/ci/release-plan.ts:39-66 | every statement of an automatic release's new files, however deep in DO blocks, is additive or replaces a routine |
| ReleasePlan.AutomaticReleaseDropsExactly | tools/ci/release-plan.ts:56-64 | a name that was there is gone after a new file of an automatic release ran iff some statement of it, however deep, drops the name behind another of its list, or first while the picture before the file does not know it, and none that runs later creates it again |
| ReleasePlan.AutomaticReleaseKeepsTables | tools/ci/release-plan.ts:56-64 | no new file of an automatic release drops a table |
| ReleaseEffects.QuietFileChangesExactly | tools/upgrade/classify.ts:311-563 | what a file of additive and routine-replacing statements can change of what was there: exactly the triggers, grants, indexes and objects its statements reach where the classifier does not look |
| ReleaseEffects.AutomaticFileChangesExactly | tools/upgrade/classify.ts:565-594 | a file classed additive or replacing a routine was read through to its leaves, and changes of what was there exactly what they reach where the classifier does not look |
| ReleaseEffects.AutomaticReleaseChangesExactly | tools/ci/release-plan.ts:56-64 | the same for every new file of an automatic release, however deep in DO blocks |
| ReleaseEffects.AutomaticReleaseKeepsTableBodies | tools/ci/release-plan.ts:56-64 | after a new file of an automatic release a listed table is still there with its columns, rows, constraints and owned sequences, and the file holds no statement that could not be read |
| ReleaseEffects.AutomaticReleaseCanChange | tools/upgrade/classify.ts:398-409 | releases that need nobody and put a trigger on a table that was there, or change grants on it behind a new table |
| ReleaseEffects.DeployedStays | tools/ci/release-plan.ts:46-54 | an automatic release has every deployed migration with its old contents, and never lowers the schema |
| ReleaseHiddenDrop.AutomaticReleaseCanDrop | tools/ci/release-plan.ts:56-64 | a release that needs nobody and drops an existing index |
| ReleaseHiddenDrop.DropInBlockStaysListed | tools/upgrade/classify.ts:321-335 | the same drop in a DO block: the release needs nobody, the index is gone, and the picture still lists it |
| ReleaseHiddenDrop.LaterRoutineStaysListed | tools/upgrade/classify.ts:374-381 | a release that needs nobody and drops an existing routine as the second of a list, which the picture still lists |
| ReleasePlan.DeployedRangeUnchanged | tools/ci/release-plan.ts:46-54 | the deployed migrations of both commits are the same paths with the same contents |
| ReviewLease.StepKeeps | apps/web/scripts/localdemoReviewWindow.ts:17-201 | every step of every process, crash or service event keeps the protocol's invariant |
| ReviewLease.InitialHolds | apps/web/scripts/localdemoReviewWindow.ts:17-23 | the invariant holds before anything was started |
| ReviewLeaseSafety.LeaseRemovalIsSafe | apps/web/scripts/localdemoReviewWindow.ts:83-129 | over every run a lease is removed only by a start that failed before bootstrap, or by the finalizer whose token and pid its receipt names, after clean teardown and with the service gone; and it is never replaced |
| ReviewLeaseSafety.SingleWriter | apps/web/scripts/localdemoReviewWindow.ts:11-81 | in every reachable state at most one process may write the receipt, and nobody else changes it |
| ReviewLeaseSafety.NamedBeforeWriting | apps/web/scripts/localdemoReviewWindow.ts:74-89 | a finalizer writes only while the receipt on disk names its token and pid, and by then its parent has no write left |
| ReviewLeaseSafety.OneAttemptAtATime | apps/web/scripts/localdemoReviewWindow.ts:57-63 | at most one finalization attempt of a lease is under way, and it is under that lease's lock |
| ReviewLeaseSafety.StaleControlsAreHarmless | apps/web/scripts/localdemoReviewWindowCore.ts:59-83 | a process of an older start changes nothing of a newer lease but what its own label names, and changes that exactly when it makes or removes its lock or leaves its marker |
| ReviewLeaseSafety.StaleLockIsRemoved | apps/web/scripts/localdemoReviewWindow.ts:60-63 | a lock made in a newer lease is removed by the only two steps its maker has left, unless the maker dies before, which leaves it |
| ReviewLeaseMarker.StaleMarkerCanRemain | apps/web/scripts/localdemoReviewWindowCore.ts:67-74 | a reachable run in which a stop command of the first window leaves its marker in the second window's directory |
| ReviewLeaseRetry.FailureCanBeRetried | apps/web/scripts/localdemoReviewWindow.ts:44-47 | after a failure recorded for a clean teardown the finalizer's release, one fresh stop command and its fresh finalizer alone can remove the lease |
| ReviewLeaseRetry.FailureRetriedExactly | apps/web/scripts/localdemoReviewWindow.ts:111-129 | after such a failure some continuation removes the lease iff the finalizer had read its own pid in the receipt |
| ReviewLeaseRetry.FailureCanBeStuck | apps/web/scripts/localdemoReviewWindow.ts:187-198 | a reachable run in which a finalizer that read early records a failure no continuation can retry |
| ReviewLeaseFinal.RemovalIsFinal | apps/web/scripts/localdemoReviewWindow.ts:108-110 | after an unclean teardown the receipt that records the service as removed stays for good with its lease, and no stop command gets past looking for the service |
| ReviewLeaseFinal.RemovedIsTrue | apps/web/scripts/localdemoReviewWindow.ts:96-110 | over every run a receipt or a copy of one that says native-removed is of a service that is gone and never comes back |
| ReviewLeaseChecks.MarkerWasChecked | apps/web/scripts/localdemoReviewWindow.ts:42-53 | over every run a stop marker is left only by a command that found its service running and afterwards the receipt its own |
| ReviewLeaseChecks.SupervisionWasChecked | apps/web/scripts/localdemoReviewWindow.ts:149-185 | a supervisor writes and ends only after it found its service running |
| ReviewLeaseChecks.LockWasChecked | apps/web/scripts/localdemoReviewWindow.ts:57-63 | a lock is asked for only by a process that, having read its receipt, found it in the directory again |
| Teardown.StepKeeps | tools/upgrade/localDiagnosticCleanup.ts:135-249 | every step of the controller, of any cleanup or status command and of the world keeps the teardown invariant |
| Teardown.WitnessOutlivesSecrets | tools/upgrade/localDiagnosticCleanup.ts:211-225 | once recorded, the witness stays for as long as the key, a launch file, an artifact, the receipt or the journal does |
| Teardown.SecretsGoLast | tools/upgrade/localDiagnostic.ts:515-540 | no such file is removed, by anyone, while an api or worker process or the database storage remains |
| Teardown.RecoveryYields | tools/upgrade/localDiagnosticCleanup.ts:171-178 | a recovery signals and removes only when the controller is dead, which it then stays |
| Teardown.CleanedIsTrue | tools/upgrade/localDiagnosticCleanup.ts:229-249 | cleaned is reported iff all three absence flags hold, and from then on no api, worker, storage or private file is there again |
| TeardownRaces.CleanedStandsIffSettled | tools/upgrade/localDiagnostic.ts:79-131 | in any reachable state that reports cleaned, the report stands over every continuation iff no status or verify command is at work and no cleanup command can still conclude otherwise |
| TeardownRaces.CleanedIsLostExactly | tools/upgrade/localDiagnostic.ts:102-131 | cleaned is taken back exactly by a cleanup command that concludes without its three flags or a status or verify command that publishes runtime_unknown |
| TeardownRaces.SecondReportOverwrites | tools/upgrade/localDiagnostic.ts:79-101 | a run in which a cleanup command begun earlier overwrites cleaned for good |
| TeardownRaces.StatusCommandOverwrites | tools/upgrade/localDiagnostic.ts:102-131 | a run without any cleanup command in which a status command that saw the run running overwrites the controller's cleaned for good |
| TeardownRaces.LostReport | tools/upgrade/localDiagnosticCleanup.ts:223-249 | a run cut off after the witness was removed: nothing is left, and no command can ever report it |
| TeardownRecovery.WitnessAllowsRecovery | tools/upgrade/localDiagnostic.ts:79-101 | wherever earlier teardowns were cut off, one more cleanup command alone can reach cleaned if the witness is there and no process is left |
| TeardownRecovery.WithoutWitnessForGood | tools/upgrade/localDiagnosticCleanup.ts:154-171 | with the controller dead and the witness missing, no cleanup command ever reports cleaned or removes a file |
| TeardownRecovery.EarlyDeathKeepsKey | tools/upgrade/localDiagnostic.ts:186-209 | a run in which a controller that dies early leaves its key in that state |
| TeardownReports.AnsweredCommandOnlyAsks | tools/upgrade/localDiagnostic.ts:79-101 | a cleanup command that decides while the controller answers has one step left, whatever happens in between: it leaves its request, or dies; it never reports |
| TeardownReports.UnansweredCommandNeverAsks | tools/upgrade/localDiagnostic.ts:79-101 | one that decides where the controller does not answer never leaves a request |
| TeardownReports.ReportsTell | tools/upgrade/localDiagnostic.ts:394-468 | running is reported only with the witness on disk, runtime_failed only by a serving controller without its api or worker, runtime_unknown only by a status command |
| TeardownReports.CleanedLeavesNothing | tools/upgrade/localDiagnosticCleanup.ts:211-249 | where cleaned is reported no key, launch file, artifact, receipt, journal or witness is there, nor api, worker or storage |
| TeardownReports.StepsReport | tools/upgrade/localDiagnostic.ts:394-468 | recording the witness reports running, a controller that ends without its api or worker runtime_failed, a refusing status command runtime_unknown |
| TeardownReports.UnknownClusterIsNotCleaned | tools/upgrade/localDiagnostic.ts:498-515 | a controller that never learned of the cluster it started never reports cleaned |
| TeardownChecks.AbsentWasSeen | tools/upgrade/localDiagnosticCleanup.ts:174-206 | over every run a recovery that reports the processes gone found nobody, its own or another's, under the pid of the controller, the api, the worker and the database |
| TeardownChecks.InterventionWasChecked | tools/upgrade/localDiagnosticCleanup.ts:174-209 | a recovery signals only a live process of the run and removes only storage it found, and only after nobody had the controller's pid |
| TeardownChecks.FinishedHasReported | tools/upgrade/localDiagnostic.ts:515-540 | a controller is finished only once it has reported |
| LockSampler.Summarise | tools/upgrade/locks.ts:181-212 | the reported run is the longest block of consecutive sample numbers with no repeated number inside, and the time claimed is one interval less than its length, or unknown |
| LockSampler.RunNeverOverstates | tools/upgrade/locks.ts:183-190 | the reported run never exceeds the longest block seen, and equals it iff some longest block has no repeated number inside |
| LockSampler.DistinctIsExact | tools/upgrade/locks.ts:183-190 | it equals the longest block when sample numbers are distinct |
| LockSampler.RepeatUnderstates | tools/upgrade/locks.ts:186-190 | samples 1, 2, 2, 3 are reported as a run of two although they form a block of three |
| LockSampler.TimeNeverExceedsSpan | tools/upgrade/locks.ts:200-203 | the milliseconds claimed never exceed the difference between the last and the first sample number times the interval |
| LockSampler.Sampler.Record | tools/upgrade/locks.ts:109-119 | each granted row adds the sample's number to its relation and mode, so that what is held is what the history of samples records |
| LockSampler.Sampler.TakeAlone | tools/upgrade/locks.ts:100-119 | a sample that comes back before another is sent gets the number of samples before it and keeps the samples in turn |
| LockSampler.SamplingInTurnIsExact | tools/upgrade/locks.ts:92-165 | when the samples came back in turn and none showed the mode twice, the run reported of a relation is the longest block of samples that saw it |
| LockSampler.Sampler.Stop | tools/upgrade/locks.ts:142-165 | every relation seen gets the summary of the first of its strongest modes; the exclusive lock reported is the one seen longest at a stretch |
| LockSampler.ExclusiveIsReported | tools/upgrade/locks.ts:149-156 | an ACCESS EXCLUSIVE lock seen on a relation is the one reported for it |
| LockSampler.StrongestModeIsReported | tools/upgrade/locks.ts:147-156 | the mode reported of a relation is one it was seen in, and stands in the list of modes no earlier than any listed mode it was seen in |
| LockSampler.NamedExclusiveIsLongest | tools/upgrade/locks.ts:156-163 | the exclusive lock named is of a relation reported in AccessExclusiveLock, and none of those was seen longer at a stretch |
| LockSampler.RecordedIffGranted | tools/upgrade/locks.ts:100-119 | where samples came back in turn, a sample's number is recorded iff one of its rows shows the lock granted |
| LockSampler.ClaimIsWithinSpan | tools/upgrade/locks.ts:181-212 | a time is claimed iff two samples in a row saw the lock; it is 100 ms less than 100 ms a sample, and within the span of the sightings |
| Snapshot.Differences | tools/upgrade/snapshot.ts:78-87 | exactly the tables from before whose count or hash changed or which are gone |
| Snapshot.ViewDifferences | tools/upgrade/snapshot.ts:353-365 | exactly the views added, dropped or redefined |
| Snapshot.DiffRendered | tools/upgrade/snapshot.ts:203-214 | exactly the names added, removed or changed between the two keyed lists |
| Snapshot.ShapeDifferences | tools/upgrade/snapshot.ts:222-240 | every table from before that is gone or reshaped, once, with changes that rebuild its new shape |
| Snapshot.EditsAreExact | tools/upgrade/snapshot.ts:78-87 | the edits, applied to the state before, give the state after on exactly the names compared, and are none iff the two agree there |
| Snapshot.ViewsAgreeIffNone | tools/upgrade/snapshot.ts:353-365 | no view difference iff the snapshots are equal, and the edits turn the one into the other |
| Snapshot.RenderedIsExact | tools/upgrade/snapshot.ts:203-214 | no change iff the lists agree name by name, and the changes turn the one into the other |
| Snapshot.ShapesAgreeIffNone | tools/upgrade/snapshot.ts:222-240 | no shape difference iff every table from before is there after with the same lines by name |
| Snapshot.OrderIsUnseen | tools/upgrade/snapshot.ts:195-214 | where each line has its own name, nothing is reported iff the lines are the same in whatever order |
| Snapshot.LaterLineWins | tools/upgrade/snapshot.ts:195-206 | a line stands under its text before the first space, and of two such the later counts |
| Snapshot.SwappedColumnsAreUnseen | tools/upgrade/snapshot.ts:175-182 | two columns that trade places are not reported |

## Left out

- Regular expressions and identifier spelling: `decide`, `applyToObjects`, `replay` and the sequence check start from parsed statements; quoting, schema prefixes, `CASCADE`, privilege lists, `UNSUPPORTED_SEQUENCE_GRANT_NAME` and the reading of DO bodies belong to that parse.
- Text is a sequence of Unicode scalar values rather than UTF-16 units; every delimiter the scanner looks for lies in the Basic Multilingual Plane, so the two cut the same places; as in the source, a character above that plane belongs to no dollar tag.
- The effective-access rule and the append-only promises of `checkPrivileges` relay the server's own answers; so do `actualGrants` and the catalogue queries; that `actualGrants` drops a column grant beside a whole-table grant is `ReadOff` in `RightAccessReported`.
- The reasons, details and printed wording of findings, decisions and plan reasons, and the order in which findings, lines, differences and relations are listed, which the source sorts for display.
- `baselineAndMigrationBothChanged`, the JSON readers and the report counters: case analysis on paths and fields.
- PlanRelease: the paths of one commit's tree are distinct, as git's are; git, the temporary directory and the number a misnamed file begins with are inputs; `Number` of a prefix that is not an integer is no number.
- DeployedRangeUnchanged: assumes that a path has one version number in both commits, since the number is read from the path.
- ReviewLease: processes, launchd and the file system are steps over one shared state instead of objects; `mkdir`, receipt replacement and recursive removal are single steps; labels, tokens and pids are never reused; a deadline, an unreadable file or any refused check may end a process at any step.
- ReviewLease: the supervisor may end at any time; that it ends because it polled a stop marker, and everything that happens inside the demo itself, is left out, and so are the `status` command and all waiting times.
- DropRoutine: as in the source, nothing that judges or folds a statement reads the names after the first of a `DROP FUNCTION` list, so the picture still lists them after they are dropped (`LaterRoutineStaysListed`); what runs does read them (`Removes`).
- StaleControlsAreHarmless: is weaker than "creates and then removes a lock" because a stale stop command can also leave its marker (`StaleMarkerCanRemain`) and a process that dies in between leaves its lock (`StaleLockIsRemoved`).
- Teardown: `ps` is believed (the source takes a failing `ps` for an absent process), the check of a process identity and the signal that follows are one step, and retry counts and timeouts become the freedom to give up at any time.
- Teardown: the provision and revoke work itself, the contents of the files, and the readiness request of `verify`; writing `status.json` succeeds, so `preparation_failed`, written when the configuration is refused before the key or when such a write fails, is no state of the model.
- LockSampler: waits, the printed duration sentence, and which of several equally long exclusive locks is named.
- Snapshot: how the snapshots are read from the catalogue; `addedTables`.
- AutomaticReleaseDropsExactly: counts what a `DROP` names. What the server drops along with a named object (`CASCADE`, an owned sequence), renames (`ALTER FUNCTION ... RENAME`), a `ROLLBACK` inside a file and what a called routine does are not counted; overloads of a routine are one name, as in the source.
- Database: what a statement drags along is not part of it: `CASCADE`, foreign keys, triggers that fire, rules and updatable views, the check trigger a `REFERENCES` puts on the other table, and what a dropped column or table takes with it beyond constraints, indexes and triggers; nor are renames, owners, a trigger's being enabled, and the tables of a `TRUNCATE` behind the first.
- ClassExactly: speaks of parsed statements; which word of a GRANT is read, and that `DROP COLUMN` was said, is what the source's patterns make of the text.
- FailureCanBeRetried: is a possibility; nothing makes anybody run the stop command.
- AutomaticReleaseDropsExactly: speaks of one file; the picture it is judged by is the one before its version, which a file of the same version number would not change.
- Liveness: nothing is claimed about processes that must eventually act, except that a cleanup can reach `cleaned` (`WitnessAllowsRecovery`).
