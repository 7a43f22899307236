// apps/web/scripts/localdemoReviewWindow.ts and its Core: one review window at a time. Starter,
// supervisor, stoppers and detached finalizers share one directory; any of them may die at any
// point, and their steps interleave in any order.
module ReviewLease {
  import opened Text

  type Pid = nat
  type Label = nat
  type Token = nat

  datatype Phase = Starting | Ready | Stopping | Finalizing | FinalizationFailed | Failed
  datatype Outcome = Pending | FailedOrUnknown | NativeRemoved
  datatype Finalization = Finalization(token: Token, pid: Option<Pid>, outcome: Outcome)
  datatype Receipt = Receipt(owner: Label, phase: Phase, resourcesStopped: bool, finalization: Option<Finalization>)

  /**
   * The directory. `owner` is the start that made it. `custodian` is a history variable: the last
   * process that took the receipt over. No guard reads either.
   */
  datatype Lease = Lease(owner: Label, receipt: Option<Receipt>, plist: bool, locks: set<Label>, markers: set<Label>,
                         custodian: Option<Pid>)

  datatype StarterAt = Made | Recorded | Armed
  datatype SupervisorAt = Reading | Checking | Serving
  datatype StopperAt = Inspecting | Marking | MarkWriting
  datatype HandoffAt = Asserting | Locking | Reasserting | Refused | Persisting | Spawning | Admitting(child: Pid)
  datatype FinalizerAt =
    | Waiting | Entering | Evicting | Absent | Confirmed | Failing | FailConfirmed | Releasing | ReleaseConfirmed

  datatype Process =
    | Starter(owner: Label, starter: StarterAt)
    | Supervisor(owner: Label, supervisor: SupervisorAt, copy: Receipt)
    | Stopper(copy: Receipt, stopper: StopperAt)
    /** Inside `beginReviewFinalization`, for the supervisor or for a stop command. */
    | Handoff(copy: Receipt, clean: bool, handoff: HandoffAt)
    | Finalizer(owner: Label, token: Token, finalizer: FinalizerAt, copy: Receipt)

  /**
   * `loaded` is what the service manager runs now. `pids`, `owners` and `issued` keep fresh names
   * fresh; `everLoaded`, `tornDown` and `handedOver` remember which starts got how far.
   */
  datatype State = State(
    lease: Option<Lease>,
    loaded: set<Label>,
    processes: map<Pid, Process>,
    pids: set<Pid>,
    owners: set<Label>,
    issued: map<Token, bool>,
    bootstrapped: set<Label>,
    everLoaded: set<Label>,
    tornDown: set<Label>,
    handedOver: set<Label>)

  datatype StartMove =
    | StartMkdir(owner: Label)
    | StartPersist
    | StartArm
    | StartAbort
    | StartBootstrap

  datatype SupervisorMove =
    | SupervisorReads
    | SupervisorChecks
    | SupervisorPersists(phase: Phase)
    | SupervisorEnds(clean: bool)

  datatype StopMove =
    | StopReads
    | StopInspects
    | StopAsserts
    | StopMarks

  datatype HandoffMove =
    | HandoffAsserts
    | HandoffLocks
    /** The second check; `read` is false where the receipt could not be read at all. */
    | HandoffReasserts(read: bool)
    | HandoffUnlocks
    | HandoffPersists(token: Token)
    | HandoffSpawns(child: Pid)
    | HandoffAdmits

  datatype FinalizerMove =
    | FinalizerReads
    | FinalizerEnters
    | FinalizerEvicts
    | FinalizerSees
    | FinalizerConfirms
    | FinalizerRemoves
    | FinalizerRecordsRemoval
    | FinalizerFails
    | FinalizerConfirmsFailure
    | FinalizerRecordsFailure
    | FinalizerGivesUp
    | FinalizerConfirmsRelease
    | FinalizerReleases

  datatype Step =
    | ByStarter(pid: Pid, start: StartMove)
    | BySupervisor(pid: Pid, supervision: SupervisorMove)
    | ByStopper(pid: Pid, stop: StopMove)
    | ByHandoff(pid: Pid, handoff: HandoffMove)
    | ByFinalizer(pid: Pid, finalization: FinalizerMove)
    | ServiceLoads(pid: Pid, owner: Label)
    | ServiceGoes(owner: Label)
    /** A crash, a refused assertion, an expired deadline or any other throw. */
    | Dies(pid: Pid)

  // ------------------------------------------------------------------- the guards

  /** `assertSameReviewLease` passes. */
  predicate SameLease(s: State, owner: Label) {
    s.lease.Some? && s.lease.value.receipt.Some? && s.lease.value.receipt.value.owner == owner
  }

  /** `inspectReviewService` finds the service running and the files it was started from. */
  predicate OwnedService(s: State, owner: Label) {
    owner in s.loaded && s.lease.Some? && s.lease.value.plist
  }

  /** `assertFinalizer` passes, deadline aside. */
  predicate OwnsFinalization(s: State, pid: Pid, copy: Receipt) {
    && SameLease(s, copy.owner)
    && copy.finalization.Some?
    && s.lease.value.receipt.value.finalization.Some?
    && s.lease.value.receipt.value.finalization.value.token == copy.finalization.value.token
    && s.lease.value.receipt.value.finalization.value.pid == Some(pid)
  }

  predicate Fresh(s: State, pid: Pid) {
    pid !in s.pids
  }


  predicate IsStarter(s: State, pid: Pid, at: StarterAt) {
    pid in s.processes && s.processes[pid].Starter? && s.processes[pid].starter == at
  }

  predicate IsSupervisor(s: State, pid: Pid, at: SupervisorAt) {
    pid in s.processes && s.processes[pid].Supervisor? && s.processes[pid].supervisor == at
  }

  predicate IsStopper(s: State, pid: Pid, at: StopperAt) {
    pid in s.processes && s.processes[pid].Stopper? && s.processes[pid].stopper == at
  }

  predicate IsHandoff(s: State, pid: Pid, at: HandoffAt) {
    pid in s.processes && s.processes[pid].Handoff? && s.processes[pid].handoff == at
  }

  predicate IsFinalizer(s: State, pid: Pid, at: FinalizerAt) {
    pid in s.processes && s.processes[pid].Finalizer? && s.processes[pid].finalizer == at
  }

  predicate MayStart(s: State, pid: Pid, move: StartMove) {
    match move
    case StartMkdir(owner) => s.lease.None? && Fresh(s, pid) && owner !in s.owners
    case StartPersist => IsStarter(s, pid, Made) && s.lease.Some?
    case StartArm => IsStarter(s, pid, Recorded) && s.lease.Some?
    case StartAbort => IsStarter(s, pid, Made) || IsStarter(s, pid, Recorded)
    case StartBootstrap => IsStarter(s, pid, Armed)
  }

  predicate MaySupervise(s: State, pid: Pid, move: SupervisorMove) {
    match move
    case SupervisorReads => IsSupervisor(s, pid, Reading) && s.lease.Some? && s.lease.value.receipt.Some?
    case SupervisorChecks => IsSupervisor(s, pid, Checking) && OwnedService(s, s.processes[pid].copy.owner)
    case SupervisorPersists(phase) =>
      IsSupervisor(s, pid, Serving) && s.lease.Some?
        && (phase.Starting? || phase.Ready? || phase.Stopping? || phase.Failed?)
    case SupervisorEnds(clean) => IsSupervisor(s, pid, Serving)
  }

  predicate MayStop(s: State, pid: Pid, move: StopMove) {
    match move
    case StopReads => Fresh(s, pid) && s.lease.Some? && s.lease.value.receipt.Some?
    case StopInspects => IsStopper(s, pid, Inspecting) && OwnedService(s, s.processes[pid].copy.owner)
    case StopAsserts => IsStopper(s, pid, Marking) && SameLease(s, s.processes[pid].copy.owner)
    case StopMarks => IsStopper(s, pid, MarkWriting) && s.lease.Some?
  }

  predicate MayHandOff(s: State, pid: Pid, move: HandoffMove) {
    match move
    case HandoffAsserts => IsHandoff(s, pid, Asserting) && SameLease(s, s.processes[pid].copy.owner)
    case HandoffLocks => IsHandoff(s, pid, Locking) && s.lease.Some?
    case HandoffReasserts(_) => IsHandoff(s, pid, Reasserting)
    case HandoffUnlocks => IsHandoff(s, pid, Refused)
    case HandoffPersists(token) => IsHandoff(s, pid, Persisting) && s.lease.Some? && token !in s.issued
    case HandoffSpawns(child) => IsHandoff(s, pid, Spawning) && Fresh(s, child)
    case HandoffAdmits =>
      pid in s.processes && s.processes[pid].Handoff? && s.processes[pid].handoff.Admitting? && s.lease.Some?
      && s.processes[pid].copy.finalization.Some?
  }

  predicate MayFinalize(s: State, pid: Pid, move: FinalizerMove) {
    match move
    case FinalizerReads =>
      IsFinalizer(s, pid, Waiting) && SameLease(s, s.processes[pid].owner)
      && s.lease.value.receipt.value.finalization.Some?
      && s.lease.value.receipt.value.finalization.value.token == s.processes[pid].token
    case FinalizerEnters => IsFinalizer(s, pid, Entering) && OwnsFinalization(s, pid, s.processes[pid].copy)
    case FinalizerEvicts => IsFinalizer(s, pid, Evicting)
    case FinalizerSees => IsFinalizer(s, pid, Evicting) && s.processes[pid].owner !in s.loaded
    case FinalizerConfirms => IsFinalizer(s, pid, Absent) && OwnsFinalization(s, pid, s.processes[pid].copy)
    case FinalizerRemoves => IsFinalizer(s, pid, Confirmed) && s.processes[pid].copy.resourcesStopped
    case FinalizerRecordsRemoval =>
      IsFinalizer(s, pid, Confirmed) && !s.processes[pid].copy.resourcesStopped && s.lease.Some?
      && s.processes[pid].copy.finalization.Some?
    case FinalizerFails => IsFinalizer(s, pid, Evicting) || IsFinalizer(s, pid, Absent)
      || IsFinalizer(s, pid, Confirmed)
    case FinalizerConfirmsFailure => IsFinalizer(s, pid, Failing) && OwnsFinalization(s, pid, s.processes[pid].copy)
    case FinalizerRecordsFailure =>
      IsFinalizer(s, pid, FailConfirmed) && s.lease.Some? && s.processes[pid].copy.finalization.Some?
    case FinalizerGivesUp => IsFinalizer(s, pid, Failing) || IsFinalizer(s, pid, FailConfirmed)
    case FinalizerConfirmsRelease => IsFinalizer(s, pid, Releasing) && OwnsFinalization(s, pid, s.processes[pid].copy)
    case FinalizerReleases => IsFinalizer(s, pid, ReleaseConfirmed)
  }

  predicate Enabled(s: State, step: Step) {
    match step
    case ByStarter(pid, move) => MayStart(s, pid, move)
    case BySupervisor(pid, move) => MaySupervise(s, pid, move)
    case ByStopper(pid, move) => MayStop(s, pid, move)
    case ByHandoff(pid, move) => MayHandOff(s, pid, move)
    case ByFinalizer(pid, move) => MayFinalize(s, pid, move)
    case ServiceLoads(pid, owner) => Fresh(s, pid) && owner in s.bootstrapped && owner !in s.everLoaded
    case ServiceGoes(owner) => owner in s.loaded
    case Dies(pid) => pid in s.processes
  }

  // ------------------------------------------------------------------- the effects

  function Moved(s: State, pid: Pid, p: Process): State {
    s.(processes := s.processes[pid := p], pids := s.pids + {pid})
  }

  function Gone(s: State, pid: Pid): State {
    s.(processes := s.processes - {pid})
  }

  function Written(s: State, r: Receipt): State
    requires s.lease.Some?
  {
    s.(lease := Some(s.lease.value.(receipt := Some(r))))
  }

  /** Custody of the lease passes on, if it still is the lease of that start. */
  function Passed(s: State, owner: Label, to: Option<Pid>): State {
    if s.lease.Some? && s.lease.value.owner == owner then s.(lease := Some(s.lease.value.(custodian := to))) else s
  }

  function Locked(s: State, owner: Label): State
    requires s.lease.Some?
  {
    s.(lease := Some(s.lease.value.(locks := s.lease.value.locks + {owner})))
  }

  function Unlocked(s: State, owner: Label): State {
    if s.lease.Some? then s.(lease := Some(s.lease.value.(locks := s.lease.value.locks - {owner}))) else s
  }

  function WithPid(r: Receipt, child: Pid): Receipt
    requires r.finalization.Some?
  {
    r.(finalization := Some(r.finalization.value.(pid := Some(child))))
  }

  function WithOutcome(r: Receipt, phase: Phase, outcome: Outcome): Receipt
    requires r.finalization.Some?
  {
    r.(phase := phase, finalization := Some(r.finalization.value.(outcome := outcome)))
  }

  function Started(s: State, pid: Pid, move: StartMove): State
    requires MayStart(s, pid, move)
  {
    match move
    case StartMkdir(owner) =>
      Moved(s.(lease := Some(Lease(owner, None, false, {}, {}, Some(pid))), owners := s.owners + {owner}), pid,
            Starter(owner, Made))
    case StartPersist =>
      var p := s.processes[pid];
      Moved(Written(s, Receipt(p.owner, Starting, false, None)), pid, p.(starter := Recorded))
    case StartArm =>
      Moved(s.(lease := Some(s.lease.value.(plist := true))), pid, s.processes[pid].(starter := Armed))
    case StartAbort => Gone(s.(lease := None), pid)
    case StartBootstrap =>
      var owner := s.processes[pid].owner;
      Gone(Passed(s.(bootstrapped := s.bootstrapped + {owner}), owner, None), pid)
  }

  function Supervised(s: State, pid: Pid, move: SupervisorMove): State
    requires MaySupervise(s, pid, move)
  {
    match move
    case SupervisorReads =>
      Moved(s, pid, Supervisor(s.processes[pid].owner, Checking, s.lease.value.receipt.value))
    case SupervisorChecks => Moved(s, pid, s.processes[pid].(supervisor := Serving))
    case SupervisorPersists(phase) =>
      var r := s.processes[pid].copy.(phase := phase);
      Moved(Written(s, r), pid, Supervisor(s.processes[pid].owner, Serving, r))
    case SupervisorEnds(clean) =>
      var r := s.processes[pid].copy;
      Moved(if clean then s.(tornDown := s.tornDown + {r.owner}) else s, pid, Handoff(r, clean, Asserting))
  }

  function Stopped(s: State, pid: Pid, move: StopMove): State
    requires MayStop(s, pid, move)
  {
    match move
    case StopReads =>
      var r := s.lease.value.receipt.value;
      if !r.resourcesStopped then Moved(s, pid, Stopper(r, Inspecting))
      else if r.phase.FinalizationFailed? then Moved(s, pid, Handoff(r, true, Asserting))
      else s
    case StopInspects => Moved(s, pid, s.processes[pid].(stopper := Marking))
    case StopAsserts => Moved(s, pid, s.processes[pid].(stopper := MarkWriting))
    case StopMarks =>
      var owner := s.processes[pid].copy.owner;
      Gone(s.(lease := Some(s.lease.value.(markers := s.lease.value.markers + {owner}))), pid)
  }

  function HandedOff(s: State, pid: Pid, move: HandoffMove): State
    requires MayHandOff(s, pid, move)
  {
    match move
    case HandoffAsserts => Moved(s, pid, s.processes[pid].(handoff := Locking))
    case HandoffLocks =>
      var owner := s.processes[pid].copy.owner;
      if owner in s.lease.value.locks then Gone(s, pid)
      else Moved(Passed(Locked(s, owner), owner, Some(pid)), pid, s.processes[pid].(handoff := Reasserting))
    case HandoffReasserts(read) =>
      var same := read && SameLease(s, s.processes[pid].copy.owner);
      Moved(s, pid, s.processes[pid].(handoff := if same then Persisting else Refused))
    case HandoffUnlocks => Gone(Unlocked(s, s.processes[pid].copy.owner), pid)
    case HandoffPersists(token) =>
      var p := s.processes[pid];
      var finalization := Some(Finalization(token, None, Pending));
      var r := p.copy.(phase := Finalizing, resourcesStopped := p.clean, finalization := finalization);
      Moved(Written(s.(issued := s.issued[token := p.clean], handedOver := s.handedOver + {r.owner}), r),
            pid, Handoff(r, p.clean, Spawning))
    case HandoffSpawns(child) =>
      var p := s.processes[pid];
      var token := if p.copy.finalization.Some? then p.copy.finalization.value.token else 0;
      Moved(Moved(s, child, Finalizer(p.copy.owner, token, Waiting, p.copy)), pid, p.(handoff := Admitting(child)))
    case HandoffAdmits =>
      var p := s.processes[pid];
      Gone(Passed(Written(s, WithPid(p.copy, p.handoff.child)), p.copy.owner, Some(p.handoff.child)), pid)
  }

  function Finalized(s: State, pid: Pid, move: FinalizerMove): State
    requires MayFinalize(s, pid, move)
  {
    match move
    case FinalizerReads =>
      Moved(s, pid, Finalizer(s.processes[pid].owner, s.processes[pid].token, Entering, s.lease.value.receipt.value))
    case FinalizerEnters => Moved(s, pid, s.processes[pid].(finalizer := Evicting))
    case FinalizerEvicts => s.(loaded := s.loaded - {s.processes[pid].owner})
    case FinalizerSees => Moved(s, pid, s.processes[pid].(finalizer := Absent))
    case FinalizerConfirms => Moved(s, pid, s.processes[pid].(finalizer := Confirmed))
    case FinalizerRemoves => Gone(s.(lease := None), pid)
    case FinalizerRecordsRemoval =>
      var r := WithOutcome(s.processes[pid].copy, Failed, NativeRemoved);
      Moved(Written(s, r), pid, Finalizer(s.processes[pid].owner, s.processes[pid].token, Releasing, r))
    case FinalizerFails => Moved(s, pid, s.processes[pid].(finalizer := Failing))
    case FinalizerConfirmsFailure => Moved(s, pid, s.processes[pid].(finalizer := FailConfirmed))
    case FinalizerRecordsFailure =>
      var r := WithOutcome(s.processes[pid].copy, FinalizationFailed, FailedOrUnknown);
      Moved(Written(s, r), pid, Finalizer(s.processes[pid].owner, s.processes[pid].token, Releasing, r))
    case FinalizerGivesUp => Moved(s, pid, s.processes[pid].(finalizer := Releasing))
    case FinalizerConfirmsRelease => Moved(s, pid, s.processes[pid].(finalizer := ReleaseConfirmed))
    case FinalizerReleases =>
      var owner := s.processes[pid].owner;
      Gone(Passed(Unlocked(s, owner), owner, None), pid)
  }

  function Apply(s: State, step: Step): State
    requires Enabled(s, step)
  {
    match step
    case ByStarter(pid, move) => Started(s, pid, move)
    case BySupervisor(pid, move) => Supervised(s, pid, move)
    case ByStopper(pid, move) => Stopped(s, pid, move)
    case ByHandoff(pid, move) => HandedOff(s, pid, move)
    case ByFinalizer(pid, move) => Finalized(s, pid, move)
    case ServiceLoads(pid, owner) =>
      Moved(Passed(s.(loaded := s.loaded + {owner}, everLoaded := s.everLoaded + {owner}), owner, Some(pid)),
            pid, Supervisor(owner, Reading, Receipt(owner, Starting, false, None)))
    case ServiceGoes(owner) => s.(loaded := s.loaded - {owner})
    case Dies(pid) => Gone(s, pid)
  }

  const INITIAL := State(None, {}, map[], {}, {}, map[], {}, {}, {}, {})

  // ---------------------------------------------------------------- the invariant

  predicate Current(s: State, owner: Label) {
    s.lease.Some? && s.lease.value.owner == owner
  }

  /** `pid` has custody of the lease of the start `owner`. */
  predicate Keeps(s: State, pid: Pid, owner: Label) {
    Current(s, owner) && s.lease.value.custodian == Some(pid)
  }

  /** What every receipt ever written says is so. */
  predicate Truthful(s: State, r: Receipt) {
    && r.owner in s.owners
    && (r.resourcesStopped ==> r.finalization.Some? && r.owner in s.tornDown)
    && (r.phase.FinalizationFailed? ==> r.finalization.Some?)
    && (r.finalization.Some? ==>
          && r.owner in s.handedOver
          && r.finalization.value.token in s.issued
          && s.issued[r.finalization.value.token] == r.resourcesStopped)
  }

  predicate Sets(s: State) {
    && s.handedOver <= s.everLoaded <= s.bootstrapped <= s.owners
    && s.tornDown <= s.everLoaded
    && s.loaded <= s.everLoaded
    && s.processes.Keys <= s.pids
  }

  predicate LeaseHolds(s: State) {
    s.lease.Some? ==>
      var lease := s.lease.value;
      && lease.owner in s.owners
      && (lease.owner in s.bootstrapped ==> lease.receipt.Some? && lease.plist)
      && (lease.receipt.Some? ==>
            && lease.receipt.value.owner == lease.owner
            && Truthful(s, lease.receipt.value)
            && (lease.receipt.value.finalization.None? <==> lease.owner !in s.handedOver))
      && (lease.receipt.None? ==> lease.owner !in s.bootstrapped)
  }

  /** The finalizer the receipt names is the custodian for as long as it lives. */
  predicate NamedFinalizerKeeps(s: State) {
    s.lease.Some? && s.lease.value.receipt.Some? && s.lease.value.receipt.value.finalization.Some? ==>
      var f := s.lease.value.receipt.value.finalization.value;
      f.pid.Some? ==>
        && f.pid.value in s.pids
        && (f.pid.value in s.processes ==>
              && s.lease.value.custodian == f.pid
              && s.lease.value.owner in s.lease.value.locks
              && s.processes[f.pid.value].Finalizer?)
  }

  /** A start that was bootstrapped but not loaded has its lease untouched and unclaimed. */
  ghost predicate WaitForService(s: State) {
    forall owner :: owner in s.bootstrapped && owner !in s.everLoaded ==>
      Current(s, owner) && s.lease.value.custodian.None? && owner !in s.lease.value.locks
  }

  /** The supervisor's part before it hands over: custody without a lock. */
  predicate Undisturbed(s: State, pid: Pid, owner: Label) {
    && Keeps(s, pid, owner)
    && owner in s.everLoaded && owner !in s.handedOver
    && owner !in s.lease.value.locks
  }

  /** Custody under the finalization lock. */
  predicate KeepsLocked(s: State, pid: Pid, owner: Label) {
    Keeps(s, pid, owner) && owner in s.everLoaded && owner in s.lease.value.locks
  }

  ghost predicate OnlyChild(s: State, token: Token, child: Option<Pid>) {
    forall q :: q in s.processes && s.processes[q].Finalizer? && s.processes[q].token == token ==> Some(q) == child
  }

  /** The copy a finalizer works from is the one its token was issued with. */
  predicate OwnCopy(s: State, pid: Pid, p: Process)
    requires p.Finalizer?
  {
    && p.copy.owner == p.owner
    && Truthful(s, p.copy)
    && p.copy.finalization.Some?
    && p.copy.finalization.value.token == p.token
    && (p.copy.finalization.value.pid.Some? ==> p.copy.finalization.value.pid == Some(pid))
  }

  /** The receipt on disk carries the finalizer's token and nobody else's pid. */
  predicate TokenOnDisk(s: State, pid: Pid, p: Process)
    requires p.Finalizer?
  {
    && s.lease.Some? && s.lease.value.receipt.Some?
    && s.lease.value.receipt.value.finalization.Some?
    && s.lease.value.receipt.value.finalization.value.token == p.token
  }

  ghost predicate ProcessHolds(s: State, pid: Pid, p: Process) {
    match p
    case Starter(owner, at) =>
      && Keeps(s, pid, owner)
      && owner in s.owners && owner !in s.bootstrapped && owner !in s.lease.value.locks
      && (if at.Made? then s.lease.value.receipt.None? else s.lease.value.receipt.Some?)
      && (at.Armed? ==> s.lease.value.plist)
    case Supervisor(owner, at, copy) =>
      && Undisturbed(s, pid, owner)
      && (at.Reading? || (copy.owner == owner && copy.finalization.None? && Truthful(s, copy)))
    case Stopper(copy, at) => Truthful(s, copy)
    case Handoff(copy, clean, at) =>
      && Truthful(s, copy)
      && copy.owner in s.everLoaded
      && (clean ==> copy.owner in s.tornDown)
      && (match at
          case Asserting => copy.owner in s.handedOver || Undisturbed(s, pid, copy.owner)
          case Locking => copy.owner in s.handedOver || Undisturbed(s, pid, copy.owner)
          case Reasserting =>
            && (Current(s, copy.owner) ==> KeepsLocked(s, pid, copy.owner))
            && (copy.owner !in s.handedOver ==> Current(s, copy.owner))
          case Refused =>
            && (Current(s, copy.owner) ==> KeepsLocked(s, pid, copy.owner))
            && (copy.owner !in s.handedOver ==> Current(s, copy.owner))
          case Persisting => KeepsLocked(s, pid, copy.owner)
          case Spawning =>
            && KeepsLocked(s, pid, copy.owner)
            && s.lease.value.receipt == Some(copy)
            && copy.finalization.Some? && copy.finalization.value.pid.None?
            && OnlyChild(s, copy.finalization.value.token, None)
          case Admitting(child) =>
            && KeepsLocked(s, pid, copy.owner)
            && s.lease.value.receipt == Some(copy)
            && copy.finalization.Some? && copy.finalization.value.pid.None?
            && OnlyChild(s, copy.finalization.value.token, Some(child))
            && child in s.pids && child != pid
            && (child in s.processes ==> s.processes[child].Finalizer?))
    case Finalizer(owner, token, at, copy) =>
      && owner in s.handedOver
      && token in s.issued
      && (TokenOnDisk(s, pid, p) && s.lease.value.receipt.value.finalization.value.pid.Some? ==>
            s.lease.value.receipt.value.finalization.value.pid == Some(pid))
      && (!at.Waiting? ==> OwnCopy(s, pid, p))
      && (!at.Waiting? && !at.Entering? ==> KeepsLocked(s, pid, owner) && TokenOnDisk(s, pid, p))
      && (at.Absent? || at.Confirmed? ==> owner !in s.loaded)
      && (at.Confirmed? || at.FailConfirmed? ==> s.lease.value.receipt.value.finalization.value.pid == Some(pid))
  }

  predicate OneFinalizerPerToken(s: State) {
    forall p, q | p in s.processes && q in s.processes ::
      s.processes[p].Finalizer? && s.processes[q].Finalizer? && s.processes[p].token == s.processes[q].token ==> p == q
  }

  ghost predicate Inv(s: State) {
    && Sets(s)
    && OneFinalizerPerToken(s)
    && LeaseHolds(s)
    && NamedFinalizerKeeps(s)
    && WaitForService(s)
    && (forall pid :: pid in s.processes ==> ProcessHolds(s, pid, s.processes[pid]))
  }

  lemma InitialHolds()
    ensures Inv(INITIAL)
  {
  }

  // ------------------------------------------------------------ every step keeps it

  /** A move that a process may make without touching anything shared. */
  ghost predicate QuietMove(s: State, pid: Pid, p: Process) {
    if pid in s.processes
    then (p.Finalizer? <==> s.processes[pid].Finalizer?) && (p.Finalizer? ==> p.token == s.processes[pid].token)
    else Fresh(s, pid) && !p.Finalizer?
  }

  lemma OthersHold(s: State, pid: Pid, p: Process, q: Pid, other: Process)
    requires Inv(s) && QuietMove(s, pid, p) && ProcessHolds(s, q, other)
    ensures ProcessHolds(Moved(s, pid, p), q, other)
  {
  }

  /** One process moves on and nothing else changes. */
  lemma MoveKeeps(s: State, pid: Pid, p: Process)
    requires Inv(s) && ProcessHolds(s, pid, p) && QuietMove(s, pid, p)
    ensures Inv(Moved(s, pid, p))
  {
    var t := Moved(s, pid, p);
    forall q | q in t.processes
      ensures ProcessHolds(t, q, t.processes[q])
    {
      OthersHold(s, pid, p, q, t.processes[q]);
    }
  }

  lemma GoneKeeps(s: State, pid: Pid)
    requires Inv(s)
    ensures Inv(Gone(s, pid))
  {
  }

  lemma UnloadKeeps(s: State, owner: Label)
    requires Inv(s)
    ensures Inv(s.(loaded := s.loaded - {owner}))
  {
  }

  lemma TornDownKeeps(s: State, owner: Label)
    requires Inv(s) && owner in s.everLoaded
    ensures Inv(s.(tornDown := s.tornDown + {owner}))
  {
  }

  lemma MkdirKeeps(s: State, pid: Pid, owner: Label)
    requires Inv(s) && MayStart(s, pid, StartMkdir(owner))
    ensures Inv(Started(s, pid, StartMkdir(owner)))
  {
  }

  lemma StarterWritesKeeps(s: State, pid: Pid, move: StartMove)
    requires Inv(s) && MayStart(s, pid, move) && (move.StartPersist? || move.StartArm?)
    ensures Inv(Started(s, pid, move))
  {
  }

  lemma AbortKeeps(s: State, pid: Pid)
    requires Inv(s) && MayStart(s, pid, StartAbort)
    ensures Inv(Started(s, pid, StartAbort))
  {
  }

  lemma BootstrapKeeps(s: State, pid: Pid)
    requires Inv(s) && MayStart(s, pid, StartBootstrap)
    ensures Inv(Started(s, pid, StartBootstrap))
  {
  }

  lemma LoadKeeps(s: State, pid: Pid, owner: Label)
    requires Inv(s) && Enabled(s, ServiceLoads(pid, owner))
    ensures Inv(Apply(s, ServiceLoads(pid, owner)))
  {
  }

  lemma SupervisorWritesKeeps(s: State, pid: Pid, phase: Phase)
    requires Inv(s) && MaySupervise(s, pid, SupervisorPersists(phase))
    ensures Inv(Supervised(s, pid, SupervisorPersists(phase)))
  {
  }

  lemma MarkKeeps(s: State, pid: Pid)
    requires Inv(s) && MayStop(s, pid, StopMarks)
    ensures Inv(Stopped(s, pid, StopMarks))
  {
  }

  /** The lock is taken on one's own lease, with custody, or on a newer one, without. */
  lemma LockKeeps(s: State, pid: Pid, owner: Label)
    requires Inv(s) && IsHandoff(s, pid, Locking) && s.lease.Some? && owner == s.processes[pid].copy.owner
    requires owner !in s.lease.value.locks
    ensures Inv(Moved(Passed(Locked(s, owner), owner, Some(pid)), pid, s.processes[pid].(handoff := Reasserting)))
  {
    assert ProcessHolds(s, pid, s.processes[pid]);
    if Current(s, owner) {
      LockOwnKeeps(s, pid, owner);
    } else {
      LockOtherKeeps(s, pid, owner);
    }
  }

  lemma LockOwnKeeps(s: State, pid: Pid, owner: Label)
    requires Inv(s) && IsHandoff(s, pid, Locking) && Current(s, owner) && owner == s.processes[pid].copy.owner
    requires owner !in s.lease.value.locks
    ensures Inv(Moved(Passed(Locked(s, owner), owner, Some(pid)), pid, s.processes[pid].(handoff := Reasserting)))
  {
  }

  lemma LockOtherKeeps(s: State, pid: Pid, owner: Label)
    requires Inv(s) && IsHandoff(s, pid, Locking) && s.lease.Some? && owner == s.processes[pid].copy.owner
    requires !Current(s, owner)
    ensures Inv(Moved(Passed(Locked(s, owner), owner, Some(pid)), pid, s.processes[pid].(handoff := Reasserting)))
  {
  }

  lemma UnlockKeeps(s: State, pid: Pid)
    requires Inv(s) && MayHandOff(s, pid, HandoffUnlocks)
    ensures Inv(HandedOff(s, pid, HandoffUnlocks))
  {
  }

  lemma HandoffWritesKeeps(s: State, pid: Pid, token: Token)
    requires Inv(s) && MayHandOff(s, pid, HandoffPersists(token))
    ensures Inv(HandedOff(s, pid, HandoffPersists(token)))
  {
  }

  lemma SpawnKeeps(s: State, pid: Pid, child: Pid)
    requires Inv(s) && MayHandOff(s, pid, HandoffSpawns(child))
    ensures Inv(HandedOff(s, pid, HandoffSpawns(child)))
  {
  }

  lemma AdmitKeeps(s: State, pid: Pid)
    requires Inv(s) && MayHandOff(s, pid, HandoffAdmits)
    ensures Inv(HandedOff(s, pid, HandoffAdmits))
  {
  }

  lemma RemoveKeeps(s: State, pid: Pid)
    requires Inv(s) && MayFinalize(s, pid, FinalizerRemoves)
    ensures Inv(Finalized(s, pid, FinalizerRemoves))
  {
  }

  lemma RecordRemovalKeeps(s: State, pid: Pid)
    requires Inv(s) && MayFinalize(s, pid, FinalizerRecordsRemoval)
    ensures Inv(Finalized(s, pid, FinalizerRecordsRemoval))
  {
  }

  lemma RecordFailureKeeps(s: State, pid: Pid)
    requires Inv(s) && MayFinalize(s, pid, FinalizerRecordsFailure)
    ensures Inv(Finalized(s, pid, FinalizerRecordsFailure))
  {
  }

  lemma ReleaseKeeps(s: State, pid: Pid)
    requires Inv(s) && MayFinalize(s, pid, FinalizerReleases)
    ensures Inv(Finalized(s, pid, FinalizerReleases))
  {
  }

  lemma StopBeginsKeeps(s: State, pid: Pid)
    requires Inv(s) && MayStop(s, pid, StopReads)
    ensures Inv(Stopped(s, pid, StopReads))
  {
    var r := s.lease.value.receipt.value;
    assert Truthful(s, r);
    if !r.resourcesStopped {
      MoveKeeps(s, pid, Stopper(r, Inspecting));
    } else if r.phase.FinalizationFailed? {
      MoveKeeps(s, pid, Handoff(r, true, Asserting));
    }
  }

  lemma StartKeeps(s: State, pid: Pid, move: StartMove)
    requires Inv(s) && MayStart(s, pid, move)
    ensures Inv(Started(s, pid, move))
  {
    match move {
      case StartMkdir(owner) => MkdirKeeps(s, pid, owner);
      case StartPersist => StarterWritesKeeps(s, pid, move);
      case StartArm => StarterWritesKeeps(s, pid, move);
      case StartAbort => AbortKeeps(s, pid);
      case StartBootstrap => BootstrapKeeps(s, pid);
    }
  }

  lemma SupervisorKeeps(s: State, pid: Pid, move: SupervisorMove)
    requires Inv(s) && MaySupervise(s, pid, move)
    ensures Inv(Supervised(s, pid, move))
  {
    match move {
      case SupervisorReads =>
        MoveKeeps(s, pid, Supervisor(s.processes[pid].owner, Checking, s.lease.value.receipt.value));
      case SupervisorChecks => MoveKeeps(s, pid, s.processes[pid].(supervisor := Serving));
      case SupervisorPersists(phase) => SupervisorWritesKeeps(s, pid, phase);
      case SupervisorEnds(clean) => SupervisorEndsKeeps(s, pid, clean);
    }
  }

  lemma SupervisorEndsKeeps(s: State, pid: Pid, clean: bool)
    requires Inv(s) && MaySupervise(s, pid, SupervisorEnds(clean))
    ensures Inv(Supervised(s, pid, SupervisorEnds(clean)))
  {
    var r := s.processes[pid].copy;
    assert ProcessHolds(s, pid, s.processes[pid]);
    if clean {
      TornDownKeeps(s, r.owner);
      MoveKeeps(s.(tornDown := s.tornDown + {r.owner}), pid, Handoff(r, clean, Asserting));
    } else {
      MoveKeeps(s, pid, Handoff(r, clean, Asserting));
    }
  }

  lemma StopKeeps(s: State, pid: Pid, move: StopMove)
    requires Inv(s) && MayStop(s, pid, move)
    ensures Inv(Stopped(s, pid, move))
  {
    match move {
      case StopReads => StopBeginsKeeps(s, pid);
      case StopInspects => MoveKeeps(s, pid, s.processes[pid].(stopper := Marking));
      case StopAsserts => MoveKeeps(s, pid, s.processes[pid].(stopper := MarkWriting));
      case StopMarks => MarkKeeps(s, pid);
    }
  }

  lemma HandoffChecksKeep(s: State, pid: Pid, move: HandoffMove)
    requires Inv(s) && MayHandOff(s, pid, move)
      && (move.HandoffAsserts? || move.HandoffLocks? || move.HandoffReasserts?)
    ensures Inv(HandedOff(s, pid, move))
  {
    assert ProcessHolds(s, pid, s.processes[pid]);
    match move {
      case HandoffAsserts => MoveKeeps(s, pid, s.processes[pid].(handoff := Locking));
      case HandoffLocks =>
        if s.processes[pid].copy.owner in s.lease.value.locks {
          GoneKeeps(s, pid);
        } else {
          LockKeeps(s, pid, s.processes[pid].copy.owner);
        }
      case HandoffReasserts(read) =>
        var same := read && SameLease(s, s.processes[pid].copy.owner);
        MoveKeeps(s, pid, s.processes[pid].(handoff := if same then Persisting else Refused));
    }
  }

  lemma HandoffKeeps(s: State, pid: Pid, move: HandoffMove)
    requires Inv(s) && MayHandOff(s, pid, move)
    ensures Inv(HandedOff(s, pid, move))
  {
    match move {
      case HandoffUnlocks => UnlockKeeps(s, pid);
      case HandoffPersists(token) => HandoffWritesKeeps(s, pid, token);
      case HandoffSpawns(child) => SpawnKeeps(s, pid, child);
      case HandoffAdmits => AdmitKeeps(s, pid);
      case _ => HandoffChecksKeep(s, pid, move);
    }
  }

  lemma FinalizerReadsKeeps(s: State, pid: Pid)
    requires Inv(s) && MayFinalize(s, pid, FinalizerReads)
    ensures Inv(Finalized(s, pid, FinalizerReads))
  {
    var p := s.processes[pid];
    MoveKeeps(s, pid, Finalizer(p.owner, p.token, Entering, s.lease.value.receipt.value));
  }

  /** The finalizer's next place, where it moves on without touching anything. */
  function FinalizerNext(move: FinalizerMove): Option<FinalizerAt> {
    match move
    case FinalizerEnters => Some(Evicting)
    case FinalizerSees => Some(Absent)
    case FinalizerConfirms => Some(Confirmed)
    case FinalizerFails => Some(Failing)
    case FinalizerConfirmsFailure => Some(FailConfirmed)
    case FinalizerGivesUp => Some(Releasing)
    case FinalizerConfirmsRelease => Some(ReleaseConfirmed)
    case _ => None
  }

  lemma FinalizerMovesKeeps(s: State, pid: Pid, move: FinalizerMove)
    requires Inv(s) && MayFinalize(s, pid, move) && FinalizerNext(move).Some?
    ensures Inv(Finalized(s, pid, move))
  {
    MoveKeeps(s, pid, s.processes[pid].(finalizer := FinalizerNext(move).value));
  }

  lemma FinalizerKeeps(s: State, pid: Pid, move: FinalizerMove)
    requires Inv(s) && MayFinalize(s, pid, move)
    ensures Inv(Finalized(s, pid, move))
  {
    match move {
      case FinalizerReads => FinalizerReadsKeeps(s, pid);
      case FinalizerEvicts => UnloadKeeps(s, s.processes[pid].owner);
      case FinalizerRemoves => RemoveKeeps(s, pid);
      case FinalizerRecordsRemoval => RecordRemovalKeeps(s, pid);
      case FinalizerRecordsFailure => RecordFailureKeeps(s, pid);
      case FinalizerReleases => ReleaseKeeps(s, pid);
      case _ => FinalizerMovesKeeps(s, pid, move);
    }
  }

  /** Whatever happens next, by whichever process, the invariant still holds. */
  lemma StepKeeps(s: State, step: Step)
    requires Inv(s) && Enabled(s, step)
    ensures Inv(Apply(s, step))
  {
    match step {
      case ByStarter(pid, move) => StartKeeps(s, pid, move);
      case BySupervisor(pid, move) => SupervisorKeeps(s, pid, move);
      case ByStopper(pid, move) => StopKeeps(s, pid, move);
      case ByHandoff(pid, move) => HandoffKeeps(s, pid, move);
      case ByFinalizer(pid, move) => FinalizerKeeps(s, pid, move);
      case ServiceLoads(pid, owner) => LoadKeeps(s, pid, owner);
      case ServiceGoes(owner) => UnloadKeeps(s, owner);
      case Dies(pid) => GoneKeeps(s, pid);
    }
  }
}
