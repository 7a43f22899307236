// tools/upgrade/localDiagnostic.ts and localDiagnosticCleanup.ts: one private diagnostic directory,
// the controller that fills it, the cleanup commands that may have to finish in its place, and the
// status commands that look at it. Any of them may die at any point, and their steps interleave in
// any order.
module Teardown {
  import opened Text

  type Pid = nat

  datatype Role = Controller | Api | Worker | Postgres

  datatype File =
    | Key | ApiLaunch | WorkerLaunch | ApiArtifact | WorkerArtifact | RuntimeReceipt
    | CleanupRequest | ProvisionRequest | RevokeRequest | Journal | Witness

  /** What both teardowns remove, in the order they remove it. */
  const ORDER: seq<File> := [Key, ApiLaunch, WorkerLaunch, ApiArtifact, WorkerArtifact, RuntimeReceipt,
                             CleanupRequest, ProvisionRequest, RevokeRequest, Journal, Witness]

  /** The files that are written once; the others are requests anyone may leave at any time. */
  predicate Lasting(f: File) {
    f != CleanupRequest && f != ProvisionRequest && f != RevokeRequest
  }

  datatype Status = Preparing | Running | RuntimeFailed | RuntimeUnknown | Cleaned | CleanupUnknown
  datatype Flags = Flags(processesAbsent: bool, storageAbsent: bool, copiesRemoved: bool)

  datatype ControllerAt =
    | WritingKey | StartingCluster | WritingArtifacts | SpawningApi | SpawningWorker | WritingReceipt
    | WritingApiLaunch | WritingWorkerLaunch | Recording
    | Serving
    | EndingApi | EndingWorker | EndingCluster | CheckingStorage | Removing(next: nat) | Reporting | Finished

  datatype RecoveryAt =
    | Deciding | Requesting
    | ReadingWitness | CheckingController | StoppingApi | StoppingWorker | Looking | StoppingPostgres
    | RemovingStorage | ConfirmingStorage | RemovingFile(next: nat) | Concluding

  /** `known` is false once a process could not be stopped; `found` says the storage was seen. */
  datatype Recovery = Recovery(at: RecoveryAt, known: bool, found: bool, flags: Flags)

  /** A `status` or `verify` command that has read `running` and checks whether that is so. */
  datatype Viewer = Checking | Refusing

  /**
   * `alive` are the processes of this run; `reused` are those whose pid now belongs to somebody
   * else. `recorded` and `everCleaned` remember that the witness was written and that some
   * teardown reported `cleaned`; no guard reads them.
   */
  datatype State = State(
    controller: ControllerAt,
    cluster: bool,
    flags: Flags,
    recoveries: map<Pid, Recovery>,
    viewers: map<Pid, Viewer>,
    alive: set<Role>,
    reused: set<Role>,
    paused: bool,
    storage: bool,
    files: set<File>,
    status: Status,
    recorded: bool,
    everCleaned: bool)

  const NONE := Flags(false, false, false)
  const INITIAL := State(WritingKey, false, Flags(true, false, false), map[], map[], {Controller}, {}, false, false,
                         {}, Preparing, false, false)

  /** What the controller does next. */
  datatype Act =
    | WritesNext
    | StartsCluster(known: bool)
    | Spawns
    | Records
    | Fails
    | Serves(request: File)
    | EndsServing(failed: bool)
    | SeesExit
    | GivesUpOnChild
    | StopsCluster(gone: bool)
    | LosesCluster
    | ChecksStorage
    | RemovesNext
    | RemovalFails
    | Reports

  /** What a cleanup command does next. */
  datatype Move =
    | Begins
    | Decides
    | Requests
    | ReadsWitness
    | ChecksController
    | Signals
    | SeesGone
    | Refuses
    | LooksForStorage
    | RemovesStorage
    | ConfirmsStorage
    | RemovesFile
    | Abandons
    | Concludes
    | Dies

  /** What a status command does next. It leaves when it has printed, or dies. */
  datatype Look =
    | Sees
    | FindsWell
    | FindsFault
    | Publishes
    | Leaves

  /** Requests arrive, runtimes write their journal, processes die, pids change hands. */
  datatype Event =
    | RequestArrives(request: File)
    | JournalIsWritten
    | ProcessDies(role: Role)
    | PidIsReused(role: Role)
    | PidIsFreed(role: Role)
    | ControllerPauses(on: bool)

  datatype Step = ByController(act: Act) | ByCleanup(pid: Pid, move: Move) | ByViewer(pid: Pid, look: Look)
                | ByWorld(event: Event)

  // ------------------------------------------------------------------- the guards

  /** Some process, this run's or not, has the pid recorded for the role. */
  predicate PidTaken(s: State, role: Role) {
    role in s.alive || role in s.reused
  }

  /** `processIsResponsive` of the recorded supervisor. */
  predicate Responsive(s: State) {
    Witness in s.files && Controller in s.alive && !s.paused
  }

  /** The process a recovery is stopping. */
  function Stopping(at: RecoveryAt): Option<Role> {
    match at
    case StoppingApi => Some(Api)
    case StoppingWorker => Some(Worker)
    case StoppingPostgres => Some(Postgres)
    case _ => None
  }

  /** The controller takes its next step only while it lives and is not suspended. */
  predicate Runs(s: State) {
    Controller in s.alive && !s.paused
  }

  /** Between the first key and the witness. */
  predicate Prepares(at: ControllerAt) {
    at.StartingCluster? || at.WritingArtifacts? || at.SpawningApi? || at.SpawningWorker? || at.WritingReceipt?
    || at.WritingApiLaunch? || at.WritingWorkerLaunch? || at.Recording?
  }

  /** The controller brings nothing new into the world any more. */
  predicate Prepared(at: ControllerAt) {
    !at.WritingKey? && !Prepares(at)
  }

  predicate Writes(at: ControllerAt) {
    at.WritingKey? || at.WritingArtifacts? || at.WritingReceipt? || at.WritingApiLaunch? || at.WritingWorkerLaunch?
  }

  predicate MayAct(s: State, act: Act) {
    match act
    case WritesNext => Writes(s.controller)
    case StartsCluster(_) => s.controller.StartingCluster?
    case Spawns => s.controller.SpawningApi? || s.controller.SpawningWorker?
    case Records => s.controller.Recording?
    case Fails => Prepares(s.controller) || s.controller.Serving?
    case Serves(request) => s.controller.Serving? && (request.ProvisionRequest? || request.RevokeRequest?)
    case EndsServing(failed) => s.controller.Serving? && (failed ==> Api !in s.alive || Worker !in s.alive)
    case SeesExit => (s.controller.EndingApi? && Api !in s.alive) || (s.controller.EndingWorker? && Worker !in s.alive)
    case GivesUpOnChild => s.controller.EndingApi? || s.controller.EndingWorker?
    case StopsCluster(_) => s.controller.EndingCluster? && s.cluster
    case LosesCluster => s.controller.EndingCluster?
    case ChecksStorage => s.controller.CheckingStorage?
    case RemovesNext => s.controller.Removing? && s.controller.next < |ORDER|
    case RemovalFails => s.controller.Removing?
    case Reports => s.controller.Reporting?
  }

  predicate MayMove(s: State, r: Recovery, move: Move) {
    match move
    case Begins => false
    case Decides => r.at.Deciding?
    case Requests => r.at.Requesting?
    case ReadsWitness => r.at.ReadingWitness? && Witness in s.files
    case ChecksController => r.at.CheckingController? && !PidTaken(s, Controller)
    case Signals => Stopping(r.at).Some? && Stopping(r.at).value in s.alive
    case SeesGone => Stopping(r.at).Some? && !PidTaken(s, Stopping(r.at).value)
    case Refuses => Stopping(r.at).Some?
    case LooksForStorage => r.at.Looking?
    case RemovesStorage => r.at.RemovingStorage? && r.found
    case ConfirmsStorage => r.at.ConfirmingStorage? || (r.at.RemovingStorage? && !r.found)
    case RemovesFile => r.at.RemovingFile? && r.at.next < |ORDER|
    case Abandons => !r.at.Deciding? && !r.at.Requesting? && !r.at.Concluding?
    case Concludes => r.at.Concluding?
    case Dies => true
  }

  /** All that a status command checks is in order. */
  predicate Well(s: State) {
    Responsive(s) && Api in s.alive && Worker in s.alive
  }

  /** A check can fail where all is well, as when a child is suspended; it cannot succeed where not. */
  predicate MayLook(s: State, pid: Pid, look: Look) {
    match look
    case Sees => pid !in s.viewers && s.status.Running?
    case FindsWell => pid in s.viewers && s.viewers[pid].Checking? && Well(s)
    case FindsFault => pid in s.viewers && s.viewers[pid].Checking?
    case Publishes => pid in s.viewers && s.viewers[pid].Refusing?
    case Leaves => pid in s.viewers
  }

  predicate MayHappen(s: State, event: Event) {
    match event
    case RequestArrives(request) => !Lasting(request)
    case JournalIsWritten => Api in s.alive || Worker in s.alive
    case ProcessDies(role) => role in s.alive
    case PidIsReused(role) => role !in s.alive && role !in s.reused
    case PidIsFreed(role) => role in s.reused
    case ControllerPauses(_) => Controller in s.alive
  }

  predicate Enabled(s: State, step: Step) {
    match step
    case ByController(act) => Runs(s) && MayAct(s, act)
    case ByCleanup(pid, move) =>
      if pid in s.recoveries then MayMove(s, s.recoveries[pid], move) else move.Begins?
    case ByViewer(pid, look) => MayLook(s, pid, look)
    case ByWorld(event) => MayHappen(s, event)
  }

  // ------------------------------------------------------------------- the effects

  function Report(flags: Flags): Status {
    if flags.processesAbsent && flags.storageAbsent && flags.copiesRemoved then Cleaned else CleanupUnknown
  }

  /** What the controller writes next, and where that takes it. */
  function Written(at: ControllerAt): (set<File>, ControllerAt)
    requires Writes(at)
  {
    match at
    case WritingKey => ({Key}, StartingCluster)
    case WritingArtifacts => ({ApiArtifact, WorkerArtifact}, SpawningApi)
    case WritingReceipt => ({RuntimeReceipt}, WritingApiLaunch)
    case WritingApiLaunch => ({ApiLaunch}, WritingWorkerLaunch)
    case WritingWorkerLaunch => ({WorkerLaunch}, Recording)
  }

  /** Where a recovery goes after it has tried to stop a process, `gone` or not. */
  function AfterStop(r: Recovery, gone: bool): Recovery {
    match r.at
    case StoppingApi => r.(at := StoppingWorker, known := r.known && gone)
    case StoppingWorker => r.(at := if r.known && gone then Looking else Concluding, known := r.known && gone)
    case _ =>
      if gone then r.(at := RemovingStorage, flags := r.flags.(processesAbsent := true)) else r.(at := Concluding)
  }

  function AfterRemoval(r: Recovery): Recovery
    requires r.at.RemovingFile?
  {
    if r.at.next + 1 < |ORDER| then r.(at := RemovingFile(r.at.next + 1))
    else r.(at := Concluding, flags := r.flags.(copiesRemoved := true))
  }

  /** What is left to remove shrinks by one file; after the last, the copies are gone. */
  function Removed(s: State): State
    requires s.controller.Removing? && s.controller.next < |ORDER|
  {
    var next := s.controller.next + 1;
    if next < |ORDER| then s.(files := s.files - {ORDER[next - 1]}, controller := Removing(next))
    else s.(files := s.files - {ORDER[next - 1]}, controller := Reporting, flags := s.flags.(copiesRemoved := true))
  }

  function Acted(s: State, act: Act): State
    requires MayAct(s, act)
  {
    match act
    case WritesNext => s.(files := s.files + Written(s.controller).0, controller := Written(s.controller).1)
    case StartsCluster(known) =>
      s.(storage := true, alive := s.alive + {Postgres}, cluster := known,
         controller := if known then WritingArtifacts else EndingApi)
    case Spawns =>
      if s.controller.SpawningApi? then s.(alive := s.alive + {Api}, controller := SpawningWorker)
      else s.(alive := s.alive + {Worker}, controller := WritingReceipt)
    case Records => s.(files := s.files + {Witness}, recorded := true, status := Running, controller := Serving)
    case Fails => s.(controller := EndingApi)
    case Serves(request) => s.(files := s.files - {request})
    case EndsServing(failed) => s.(controller := EndingApi, status := if failed then RuntimeFailed else s.status)
    case SeesExit => s.(controller := if s.controller.EndingApi? then EndingWorker else EndingCluster)
    case GivesUpOnChild =>
      s.(controller := if s.controller.EndingApi? then EndingWorker else EndingCluster,
         flags := s.flags.(processesAbsent := false))
    case StopsCluster(gone) =>
      s.(alive := s.alive - {Postgres}, storage := s.storage && !gone, controller := CheckingStorage)
    case LosesCluster => s.(controller := Reporting)
    case ChecksStorage =>
      s.(flags := s.flags.(storageAbsent := !s.storage),
         controller := if s.flags.processesAbsent && !s.storage then Removing(0) else Reporting)
    case RemovesNext => Removed(s)
    case RemovalFails => s.(controller := Reporting)
    case Reports =>
      s.(status := Report(s.flags), everCleaned := s.everCleaned || Report(s.flags).Cleaned?, controller := Finished)
  }

  /** What a cleanup command's move makes of itself; nothing where it is over. */
  function Moved(s: State, r: Recovery, move: Move): Option<Recovery>
    requires MayMove(s, r, move)
  {
    match move
    case Decides => Some(r.(at := if Responsive(s) then Requesting else ReadingWitness))
    case ReadsWitness => Some(r.(at := CheckingController))
    case ChecksController => Some(r.(at := StoppingApi))
    case Signals => Some(r)
    case SeesGone => Some(AfterStop(r, true))
    case Refuses => Some(AfterStop(r, false))
    case LooksForStorage => Some(r.(at := StoppingPostgres, found := s.storage))
    case RemovesStorage => Some(r.(at := ConfirmingStorage))
    case ConfirmsStorage =>
      Some(r.(at := if s.storage then Concluding else RemovingFile(0), flags := r.flags.(storageAbsent := !s.storage)))
    case RemovesFile => Some(AfterRemoval(r))
    case Abandons => Some(r.(at := Concluding))
    case Requests => None
    case Concludes => None
    case Dies => None
  }

  /** What a cleanup command's move does to the directory. */
  function Touched(s: State, r: Recovery, move: Move): State
    requires MayMove(s, r, move)
  {
    match move
    case Requests => s.(files := s.files + {CleanupRequest})
    case RemovesStorage => s.(storage := false)
    case RemovesFile => s.(files := s.files - {ORDER[r.at.next]})
    case Concludes => s.(status := Report(r.flags), everCleaned := s.everCleaned || Report(r.flags).Cleaned?)
    case _ => s
  }

  /** A status command looks, and may put `runtime_unknown` in the place of whatever is reported. */
  function Viewed(s: State, pid: Pid, look: Look): State {
    match look
    case Sees => s.(viewers := s.viewers[pid := Checking])
    case FindsFault => s.(viewers := s.viewers[pid := Refusing])
    case Publishes => s.(viewers := s.viewers - {pid}, status := RuntimeUnknown)
    case _ => s.(viewers := s.viewers - {pid})
  }

  function Happened(s: State, event: Event): State {
    match event
    case RequestArrives(request) => s.(files := s.files + {request})
    case JournalIsWritten => s.(files := s.files + {Journal})
    case ProcessDies(role) => s.(alive := s.alive - {role})
    case PidIsReused(role) => s.(reused := s.reused + {role})
    case PidIsFreed(role) => s.(reused := s.reused - {role})
    case ControllerPauses(on) => s.(paused := on)
  }

  function Placed(s: State, pid: Pid, r: Option<Recovery>): State {
    s.(recoveries := match r case Some(next) => s.recoveries[pid := next] case None => s.recoveries - {pid})
  }

  /** A cleanup command that finds the run cleaned has nothing to do. */
  function Begun(s: State): Option<Recovery> {
    if s.status.Cleaned? then None else Some(Recovery(Deciding, true, false, NONE))
  }

  function Apply(s: State, step: Step): State
    requires Enabled(s, step)
  {
    match step
    case ByController(act) => Acted(s, act)
    case ByCleanup(pid, move) =>
      if pid in s.recoveries
      then Placed(Touched(s, s.recoveries[pid], move), pid, Moved(s, s.recoveries[pid], move))
      else Placed(s, pid, Begun(s))
    case ByViewer(pid, look) => Viewed(s, pid, look)
    case ByWorld(event) => Happened(s, event)
  }

  // ---------------------------------------------------------------- the invariant

  predicate Absent(s: State, upTo: nat)
    requires upTo <= |ORDER|
  {
    forall i :: 0 <= i < upTo && Lasting(ORDER[i]) ==> ORDER[i] !in s.files
  }

  /** No api, no worker and no database storage, and none will come. */
  predicate Quiet(s: State) {
    Api !in s.alive && Worker !in s.alive && !s.storage && Prepared(s.controller)
  }

  /** Nothing private is left, and nothing private will come. */
  predicate AllGone(s: State) {
    Quiet(s) && Absent(s, |ORDER|)
  }

  predicate FlagsHold(s: State, flags: Flags) {
    && (flags.storageAbsent ==> !s.storage && Prepared(s.controller))
    && (flags.copiesRemoved ==> AllGone(s))
  }

  predicate ControllerHolds(s: State) {
    && FlagsHold(s, s.flags)
    && (s.recorded ==> Prepared(s.controller))
    && (match s.controller
        case EndingWorker => s.flags.processesAbsent ==> Api !in s.alive
        case EndingCluster => s.flags.processesAbsent ==> Api !in s.alive && Worker !in s.alive
        case CheckingStorage => s.flags.processesAbsent ==> Api !in s.alive && Worker !in s.alive
        case Removing(next) => Quiet(s) && next < |ORDER| && Absent(s, next) && s.flags.processesAbsent
          && s.flags.storageAbsent
        case _ => true)
  }

  predicate RecoveryHolds(s: State, r: Recovery) {
    && FlagsHold(s, r.flags)
    && (r.flags.copiesRemoved ==>
          Controller !in s.alive && r.at.Concluding? && r.flags.processesAbsent && r.flags.storageAbsent)
    && (r.at.Deciding? || r.at.Requesting? || r.at.ReadingWitness? || r.at.Concluding? || s.recorded)
    && (r.at.Deciding? || r.at.Requesting? || r.at.ReadingWitness? || r.at.CheckingController? || r.at.Concluding?
        || Controller !in s.alive)
    && (match r.at
        case StoppingWorker => r.known ==> Api !in s.alive
        case Looking => Api !in s.alive && Worker !in s.alive
        case StoppingPostgres => Api !in s.alive && Worker !in s.alive && (!r.found ==> !s.storage)
        case RemovingStorage => Api !in s.alive && Worker !in s.alive && (!r.found ==> !s.storage)
          && r.flags.processesAbsent
        case ConfirmingStorage => Api !in s.alive && Worker !in s.alive && r.flags.processesAbsent
        case RemovingFile(next) =>
          Quiet(s) && next < |ORDER| && Absent(s, next) && r.flags.processesAbsent && r.flags.storageAbsent
        case _ => true)
  }

  /** Everything the invariant says of the directory and the controller. */
  predicate Shared(s: State) {
    && ControllerHolds(s)
    && (Witness in s.files ==> s.recorded)
    && (s.recorded && Witness !in s.files ==> AllGone(s))
    && (s.everCleaned ==> AllGone(s) && (Controller in s.alive ==> s.controller.Finished?))
    && (s.status.Cleaned? ==> s.everCleaned)
  }

  predicate Inv(s: State) {
    Shared(s) && forall pid :: pid in s.recoveries ==> RecoveryHolds(s, s.recoveries[pid])
  }

  lemma InitialHolds()
    ensures Inv(INITIAL)
  {
  }

  // ------------------------------------------------------------ every step keeps it

  /** Nothing a recovery or the controller relies on is taken back. */
  predicate OnlyForward(s: State, t: State) {
    && (Quiet(s) ==> Quiet(t))
    && (s.recorded ==> t.recorded)
    && (Controller !in s.alive ==> Controller !in t.alive)
    && (Prepared(s.controller) ==> Prepared(t.controller) && t.alive <= s.alive && (t.storage ==> s.storage))
    && (Quiet(s) ==> forall f :: Lasting(f) && f in t.files ==> f in s.files)
  }

  lemma OthersHold(s: State, t: State, r: Recovery)
    requires Inv(s) && OnlyForward(s, t) && RecoveryHolds(s, r)
    ensures RecoveryHolds(t, r)
  {
  }

  /** The directory and the controller still are as the invariant says, and nothing was taken back. */
  predicate Advances(s: State, t: State) {
    Shared(t) && OnlyForward(s, t) && t.recoveries == s.recoveries
  }

  lemma WritingKeeps(s: State)
    requires Inv(s) && MayAct(s, WritesNext)
    ensures Advances(s, Acted(s, WritesNext))
  {
  }

  lemma StartingKeeps(s: State, act: Act)
    requires Inv(s) && MayAct(s, act) && (act.StartsCluster? || act.Spawns?)
    ensures Advances(s, Acted(s, act))
  {
  }

  lemma ServingKeeps(s: State, act: Act)
    requires Inv(s) && MayAct(s, act) && (act.Records? || act.Fails? || act.Serves? || act.EndsServing?)
    ensures Advances(s, Acted(s, act))
  {
  }

  lemma EndingKeeps(s: State, act: Act)
    requires Inv(s) && MayAct(s, act) && (act.SeesExit? || act.GivesUpOnChild?)
    ensures Advances(s, Acted(s, act))
  {
  }

  lemma ClusterKeeps(s: State, act: Act)
    requires Inv(s) && MayAct(s, act) && (act.StopsCluster? || act.LosesCluster? || act.ChecksStorage?)
    ensures Advances(s, Acted(s, act))
  {
  }

  lemma RemovingKeepsAbsent(s: State, next: nat)
    requires next < |ORDER| && Absent(s, next)
    ensures Absent(s.(files := s.files - {ORDER[next]}), next + 1)
  {
  }

  lemma RemovingOneKeeps(s: State)
    requires Inv(s) && MayAct(s, RemovesNext) && s.controller.next + 1 < |ORDER|
    ensures Advances(s, Acted(s, RemovesNext))
  {
    RemovingKeepsAbsent(s, s.controller.next);
  }

  lemma RemovingLastKeeps(s: State)
    requires Inv(s) && MayAct(s, RemovesNext) && s.controller.next + 1 == |ORDER|
    ensures Advances(s, Acted(s, RemovesNext))
  {
    RemovingKeepsAbsent(s, s.controller.next);
  }

  lemma ReportingKeeps(s: State, act: Act)
    requires Inv(s) && MayAct(s, act) && (act.RemovalFails? || act.Reports?)
    ensures Advances(s, Acted(s, act))
  {
  }

  lemma ActKeeps(s: State, act: Act)
    requires Inv(s) && MayAct(s, act)
    ensures Advances(s, Acted(s, act))
  {
    match act {
      case WritesNext => WritingKeeps(s);
      case StartsCluster(_) => StartingKeeps(s, act);
      case Spawns => StartingKeeps(s, act);
      case Records => ServingKeeps(s, act);
      case Fails => ServingKeeps(s, act);
      case Serves(_) => ServingKeeps(s, act);
      case EndsServing(_) => ServingKeeps(s, act);
      case SeesExit => EndingKeeps(s, act);
      case GivesUpOnChild => EndingKeeps(s, act);
      case StopsCluster(_) => ClusterKeeps(s, act);
      case LosesCluster => ClusterKeeps(s, act);
      case ChecksStorage => ClusterKeeps(s, act);
      case RemovesNext =>
        if s.controller.next + 1 < |ORDER| {
          RemovingOneKeeps(s);
        } else {
          RemovingLastKeeps(s);
        }
      case RemovalFails => ReportingKeeps(s, act);
      case Reports => ReportingKeeps(s, act);
    }
  }

  lemma EventKeeps(s: State, event: Event)
    requires Inv(s) && MayHappen(s, event)
    ensures Advances(s, Happened(s, event))
  {
  }

  lemma LookKeeps(s: State, pid: Pid, look: Look)
    requires Inv(s)
    ensures Advances(s, Viewed(s, pid, look))
  {
  }

  lemma TouchKeeps(s: State, r: Recovery, move: Move)
    requires Inv(s) && RecoveryHolds(s, r) && MayMove(s, r, move)
    ensures Advances(s, Touched(s, r, move))
  {
  }

  lemma MoveKeeps(s: State, r: Recovery, move: Move)
    requires Inv(s) && RecoveryHolds(s, r) && MayMove(s, r, move) && Moved(s, r, move).Some?
    ensures RecoveryHolds(Touched(s, r, move), Moved(s, r, move).value)
  {
  }

  /** Once the directory has moved on, every recovery still stands where its own part says. */
  lemma PlacedKeeps(s: State, t: State, pid: Pid, r: Option<Recovery>)
    requires Inv(s) && Advances(s, t)
    requires r.Some? ==> RecoveryHolds(t, r.value)
    ensures Inv(Placed(t, pid, r))
  {
    var u := Placed(t, pid, r);
    forall q | q in u.recoveries
      ensures RecoveryHolds(u, u.recoveries[q])
    {
      if q != pid {
        OthersHold(s, t, s.recoveries[q]);
      }
    }
  }

  lemma QuietlyKeeps(s: State, t: State)
    requires Inv(s) && Advances(s, t)
    ensures Inv(t)
  {
    forall q | q in t.recoveries
      ensures RecoveryHolds(t, t.recoveries[q])
    {
      OthersHold(s, t, s.recoveries[q]);
    }
  }

  /** Whatever happens next, by whichever process, the invariant still holds. */
  lemma StepKeeps(s: State, step: Step)
    requires Inv(s) && Enabled(s, step)
    ensures Inv(Apply(s, step))
  {
    match step {
      case ByController(act) =>
        ActKeeps(s, act);
        QuietlyKeeps(s, Acted(s, act));
      case ByWorld(event) =>
        EventKeeps(s, event);
        QuietlyKeeps(s, Happened(s, event));
      case ByViewer(pid, look) =>
        LookKeeps(s, pid, look);
        QuietlyKeeps(s, Viewed(s, pid, look));
      case ByCleanup(pid, move) =>
        if pid in s.recoveries {
          var r := s.recoveries[pid];
          TouchKeeps(s, r, move);
          if Moved(s, r, move).Some? {
            MoveKeeps(s, r, move);
          }
          PlacedKeeps(s, Touched(s, r, move), pid, Moved(s, r, move));
        } else {
          PlacedKeeps(s, s, pid, Begun(s));
        }
    }
  }

  // ---------------------------------------------------------------- over every run

  ghost predicate Run(states: seq<State>, steps: seq<Step>) {
    && |states| == |steps| + 1
    && states[0] == INITIAL
    && forall i :: 0 <= i < |steps| ==> Enabled(states[i], steps[i]) && states[i + 1] == Apply(states[i], steps[i])
  }

  lemma {:induction false} RunKeeps(states: seq<State>, steps: seq<Step>, i: nat)
    requires Run(states, steps) && i < |states|
    ensures Inv(states[i])
  {
    if i == 0 {
      InitialHolds();
    } else {
      RunKeeps(states, steps, i - 1);
      StepKeeps(states[i - 1], steps[i - 1]);
    }
  }

  /**
   * Once the witness is recorded it stays for as long as the key, a launch file, an artifact, the
   * runtime receipt or the journal does.
   */
  lemma WitnessOutlivesSecrets(states: seq<State>, steps: seq<Step>, i: nat, f: File)
    requires Run(states, steps) && i < |states|
    requires states[i].recorded && Lasting(f) && f in states[i].files
    ensures Witness in states[i].files
  {
    RunKeeps(states, steps, i);
    InOrder(f);
  }

  lemma InOrder(f: File)
    ensures f in ORDER
  {
    match f {
      case Key => assert ORDER[0] == f;
      case ApiLaunch => assert ORDER[1] == f;
      case WorkerLaunch => assert ORDER[2] == f;
      case ApiArtifact => assert ORDER[3] == f;
      case WorkerArtifact => assert ORDER[4] == f;
      case RuntimeReceipt => assert ORDER[5] == f;
      case CleanupRequest => assert ORDER[6] == f;
      case ProvisionRequest => assert ORDER[7] == f;
      case RevokeRequest => assert ORDER[8] == f;
      case Journal => assert ORDER[9] == f;
      case Witness => assert ORDER[10] == f;
    }
  }

  /** A private file goes only when no api, no worker and no database storage is left, whoever removes it. */
  lemma SecretsGoLast(states: seq<State>, steps: seq<Step>, i: nat, f: File)
    requires Run(states, steps) && i < |steps|
    requires Lasting(f) && f in states[i].files && f !in states[i + 1].files
    ensures Api !in states[i].alive && Worker !in states[i].alive && !states[i].storage
  {
    RunKeeps(states, steps, i);
    RemovalIsQuiet(states[i], steps[i], f);
  }

  lemma RemovalIsQuiet(s: State, step: Step, f: File)
    requires Inv(s) && Enabled(s, step)
    requires Lasting(f) && f in s.files && f !in Apply(s, step).files
    ensures Quiet(s)
  {
    match step {
      case ByController(act) => ActRemoval(s, act, f);
      case ByCleanup(pid, move) => CleanupRemoval(s, pid, move, f);
      case ByViewer(pid, look) => LookRemoval(s, pid, look);
      case ByWorld(event) => EventRemoval(s, event, f);
    }
  }

  lemma CleanupRemoval(s: State, pid: Pid, move: Move, f: File)
    requires Inv(s) && Enabled(s, ByCleanup(pid, move)) && Lasting(f) && f in s.files
    ensures f in Apply(s, ByCleanup(pid, move)).files || Quiet(s)
  {
    if pid in s.recoveries {
      TouchRemoval(s, s.recoveries[pid], move, f);
    }
  }

  lemma ActRemoval(s: State, act: Act, f: File)
    requires Inv(s) && MayAct(s, act) && Lasting(f) && f in s.files
    ensures f in Acted(s, act).files || Quiet(s)
  {
  }

  lemma TouchRemoval(s: State, r: Recovery, move: Move, f: File)
    requires Inv(s) && RecoveryHolds(s, r) && MayMove(s, r, move) && Lasting(f) && f in s.files
    ensures f in Touched(s, r, move).files || Quiet(s)
  {
  }

  lemma LookRemoval(s: State, pid: Pid, look: Look)
    ensures Viewed(s, pid, look).files == s.files
  {
  }

  lemma EventRemoval(s: State, event: Event, f: File)
    requires MayHappen(s, event) && f in s.files
    ensures f in Happened(s, event).files
  {
  }

  /** The move signals a process or removes storage or a file. */
  predicate Intervenes(move: Move) {
    move.Signals? || move.RemovesStorage? || move.RemovesFile?
  }

  /** A recovery signals and removes only when the controller is dead, and it never comes back. */
  lemma RecoveryYields(states: seq<State>, steps: seq<Step>, i: nat, j: nat)
    requires Run(states, steps) && i <= j < |states| && i < |steps|
    requires steps[i].ByCleanup? && Intervenes(steps[i].move)
    ensures Controller !in states[j].alive
    decreases j
  {
    if i == j {
      RunKeeps(states, steps, i);
    } else {
      RecoveryYields(states, steps, i, j - 1);
      RunKeeps(states, steps, j - 1);
      DeadStaysDead(states[j - 1], steps[j - 1]);
    }
  }

  lemma DeadStaysDead(s: State, step: Step)
    requires Inv(s) && Enabled(s, step) && Controller !in s.alive
    ensures Controller !in Apply(s, step).alive
  {
    match step {
      case ByController(_) =>
      case ByCleanup(pid, move) =>
        if pid in s.recoveries {
          TouchKeeps(s, s.recoveries[pid], move);
        }
      case ByViewer(pid, look) => LookKeeps(s, pid, look);
      case ByWorld(event) => EventKeeps(s, event);
    }
  }

  /** The flags the step reports by, if it reports. */
  function Reported(s: State, step: Step): Option<Flags> {
    match step
    case ByController(act) => if act.Reports? then Some(s.flags) else None
    case ByCleanup(pid, move) => if move.Concludes? && pid in s.recoveries then Some(s.recoveries[pid].flags) else None
    case ByViewer(_, _) => None
    case ByWorld(_) => None
  }

  /**
   * `cleaned` is reported exactly when all three absence flags hold; and from the first such
   * report on, no api, no worker, no storage and no private file is there again.
   */
  lemma CleanedIsTrue(states: seq<State>, steps: seq<Step>, i: nat)
    requires Run(states, steps) && i < |steps|
    ensures states[i + 1].status.Cleaned? && !states[i].status.Cleaned? ==> Reported(states[i], steps[i]).Some?
    ensures Reported(states[i], steps[i]).Some? ==>
              var flags := Reported(states[i], steps[i]).value;
              (states[i + 1].status.Cleaned? <==> flags.processesAbsent && flags.storageAbsent && flags.copiesRemoved)
    ensures states[i + 1].status.Cleaned? ==> states[i + 1].everCleaned
    ensures states[i].everCleaned ==> states[i + 1].everCleaned && AllGone(states[i + 1])
  {
    RunKeeps(states, steps, i);
    RunKeeps(states, steps, i + 1);
    ReportStep(states[i], steps[i]);
  }

  lemma ReportStep(s: State, step: Step)
    requires Enabled(s, step)
    ensures Reported(s, step).None? ==> Apply(s, step).status == s.status || !Apply(s, step).status.Cleaned?
    ensures Reported(s, step).Some? ==> Apply(s, step).status == Report(Reported(s, step).value)
    ensures s.everCleaned ==> Apply(s, step).everCleaned
  {
    match step {
      case ByController(act) => ActReports(s, act);
      case ByCleanup(pid, move) =>
        if pid in s.recoveries {
          TouchReports(s, s.recoveries[pid], move);
        }
      case ByViewer(_, _) =>
      case ByWorld(event) => EventReports(s, event);
    }
  }

  lemma ActReports(s: State, act: Act)
    requires MayAct(s, act)
    ensures act.Reports? ==> Acted(s, act).status == Report(s.flags)
    ensures !act.Reports? ==> Acted(s, act).status == s.status || !Acted(s, act).status.Cleaned?
    ensures s.everCleaned ==> Acted(s, act).everCleaned
  {
  }

  lemma TouchReports(s: State, r: Recovery, move: Move)
    requires MayMove(s, r, move)
    ensures move.Concludes? ==> Touched(s, r, move).status == Report(r.flags)
    ensures !move.Concludes? ==> Touched(s, r, move).status == s.status
    ensures s.everCleaned ==> Touched(s, r, move).everCleaned
  {
  }

  lemma EventReports(s: State, event: Event)
    ensures Happened(s, event).status == s.status && Happened(s, event).everCleaned == s.everCleaned
  {
  }
}
