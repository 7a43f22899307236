// What a process of the review window has seen before it acts: no marker, no service and no lock without
// the check that goes before it.
module ReviewLeaseChecks {
  import opened ReviewLease
  import opened ReviewLeaseSafety

  /** The service of that start runs, and the directory holds what it was started from. */
  predicate ServiceRuns(s: State, owner: Label) {
    owner in s.loaded && s.lease.Some? && s.lease.value.plist
  }

  /** The receipt in the directory is that start's. */
  predicate ReceiptIsOf(s: State, owner: Label) {
    s.lease.Some? && s.lease.value.receipt.Some? && s.lease.value.receipt.value.owner == owner
  }

  /** Before `j`, the process inspected its service and found it. */
  ghost predicate Inspected(states: seq<State>, steps: seq<Step>, j: nat, pid: Pid, owner: Label) {
    exists i :: 0 <= i < j && i < |steps| && i < |states|
             && steps[i] == ByStopper(pid, StopInspects) && ServiceRuns(states[i], owner)
  }

  ghost predicate Asserted(states: seq<State>, steps: seq<Step>, j: nat, pid: Pid, owner: Label) {
    exists i :: 0 <= i < j && i < |steps| && i < |states|
             && steps[i] == ByStopper(pid, StopAsserts) && ReceiptIsOf(states[i], owner)
             && Inspected(states, steps, i, pid, owner)
  }

  ghost predicate Checked(states: seq<State>, steps: seq<Step>, j: nat, pid: Pid, owner: Label) {
    exists i :: 0 <= i < j && i < |steps| && i < |states|
             && steps[i] == BySupervisor(pid, SupervisorChecks) && ServiceRuns(states[i], owner)
  }

  ghost predicate AssertedBeforeLock(states: seq<State>, steps: seq<Step>, j: nat, pid: Pid, owner: Label) {
    exists i :: 0 <= i < j && i < |steps| && i < |states|
             && steps[i] == ByHandoff(pid, HandoffAsserts) && ReceiptIsOf(states[i], owner)
  }

  /** What the process must have seen to stand where it stands. */
  ghost predicate HasSeen(states: seq<State>, steps: seq<Step>, j: nat, pid: Pid, p: Process) {
    match p
    case Stopper(copy, at) =>
      && (at.Marking? ==> Inspected(states, steps, j, pid, copy.owner))
      && (at.MarkWriting? ==> Asserted(states, steps, j, pid, copy.owner))
    case Supervisor(_, at, copy) => at.Serving? ==> Checked(states, steps, j, pid, copy.owner)
    case Handoff(copy, _, at) => !at.Asserting? ==> AssertedBeforeLock(states, steps, j, pid, copy.owner)
    case _ => true
  }

  /** What the step that brought the process there shows. */
  predicate Shows(s: State, step: Step, pid: Pid, p: Process) {
    match p
    case Stopper(copy, at) =>
      && (at.Marking? ==> step == ByStopper(pid, StopInspects) && ServiceRuns(s, copy.owner))
      && (at.MarkWriting? ==> step == ByStopper(pid, StopAsserts) && ReceiptIsOf(s, copy.owner)
                              && pid in s.processes && s.processes[pid] == Stopper(copy, Marking))
    case Supervisor(_, at, copy) =>
      at.Serving? ==>
        || (step == BySupervisor(pid, SupervisorChecks) && ServiceRuns(s, copy.owner))
        || (pid in s.processes && s.processes[pid].Supervisor? && s.processes[pid].supervisor.Serving?
            && s.processes[pid].copy.owner == copy.owner)
    case Handoff(copy, _, at) =>
      !at.Asserting? ==>
        || (step == ByHandoff(pid, HandoffAsserts) && ReceiptIsOf(s, copy.owner))
        || (pid in s.processes && s.processes[pid].Handoff? && !s.processes[pid].handoff.Asserting?
            && s.processes[pid].copy.owner == copy.owner)
    case _ => true
  }

  lemma StarterShows(s: State, actor: Pid, move: StartMove, pid: Pid)
    requires MayStart(s, actor, move)
    ensures var t := Started(s, actor, move);
      pid in t.processes ==> (pid in s.processes && t.processes[pid] == s.processes[pid]) || t.processes[pid].Starter?
  {
  }

  lemma SupervisorShows(s: State, actor: Pid, move: SupervisorMove, pid: Pid)
    requires MaySupervise(s, actor, move)
    ensures var t := Supervised(s, actor, move);
      pid in t.processes ==> (pid in s.processes && t.processes[pid] == s.processes[pid])
                             || Shows(s, BySupervisor(actor, move), pid, t.processes[pid])
  {
  }

  lemma StopperShows(s: State, actor: Pid, move: StopMove, pid: Pid)
    requires MayStop(s, actor, move)
    ensures var t := Stopped(s, actor, move);
      pid in t.processes ==> (pid in s.processes && t.processes[pid] == s.processes[pid])
                             || Shows(s, ByStopper(actor, move), pid, t.processes[pid])
  {
  }

  lemma HandoffShows(s: State, actor: Pid, move: HandoffMove, pid: Pid)
    requires MayHandOff(s, actor, move)
    ensures var t := HandedOff(s, actor, move);
      pid in t.processes ==> (pid in s.processes && t.processes[pid] == s.processes[pid])
                             || Shows(s, ByHandoff(actor, move), pid, t.processes[pid])
  {
  }

  lemma FinalizerShows(s: State, actor: Pid, move: FinalizerMove, pid: Pid)
    requires MayFinalize(s, actor, move)
    ensures var t := Finalized(s, actor, move);
      pid in t.processes ==>
        (pid in s.processes && t.processes[pid] == s.processes[pid]) || t.processes[pid].Finalizer?
  {
  }

  lemma StepShows(s: State, step: Step, pid: Pid)
    requires Enabled(s, step) && pid in Apply(s, step).processes
    ensures var p := Apply(s, step).processes[pid];
      (pid in s.processes && p == s.processes[pid]) || Shows(s, step, pid, p)
  {
    match step {
      case ByStarter(actor, move) => StarterShows(s, actor, move, pid);
      case BySupervisor(actor, move) => SupervisorShows(s, actor, move, pid);
      case ByStopper(actor, move) => StopperShows(s, actor, move, pid);
      case ByHandoff(actor, move) => HandoffShows(s, actor, move, pid);
      case ByFinalizer(actor, move) => FinalizerShows(s, actor, move, pid);
      case ServiceLoads(_, _) =>
      case ServiceGoes(_) =>
      case Dies(_) =>
    }
  }

  /** What was seen by then was seen by now. */
  lemma SeenStill(states: seq<State>, steps: seq<Step>, j: nat, pid: Pid, p: Process)
    requires HasSeen(states, steps, j, pid, p)
    ensures HasSeen(states, steps, j + 1, pid, p)
  {
  }

  lemma ShownIsSeen(states: seq<State>, steps: seq<Step>, j: nat, pid: Pid, p: Process)
    requires j < |steps| && j < |states| && Shows(states[j], steps[j], pid, p)
    requires pid in states[j].processes ==> HasSeen(states, steps, j, pid, states[j].processes[pid])
    ensures HasSeen(states, steps, j + 1, pid, p)
  {
    if pid in states[j].processes {
      SeenStill(states, steps, j, pid, states[j].processes[pid]);
    }
  }

  lemma {:induction false} SeenInRun(states: seq<State>, steps: seq<Step>, j: nat, pid: Pid)
    requires Run(states, steps) && j < |states| && pid in states[j].processes
    ensures HasSeen(states, steps, j, pid, states[j].processes[pid])
    decreases j
  {
    if j > 0 {
      if pid in states[j - 1].processes {
        SeenInRun(states, steps, j - 1, pid);
      }
      StepShows(states[j - 1], steps[j - 1], pid);
      if pid in states[j - 1].processes && states[j].processes[pid] == states[j - 1].processes[pid] {
        SeenStill(states, steps, j - 1, pid, states[j].processes[pid]);
      } else {
        ShownIsSeen(states, steps, j - 1, pid, states[j].processes[pid]);
      }
    }
  }

  /**
   * A stop marker is only left by a command that found the service of its start running and afterwards
   * the receipt in the directory its own.
   */
  lemma MarkerWasChecked(states: seq<State>, steps: seq<Step>, j: nat, pid: Pid)
    requires Run(states, steps) && j < |steps| && steps[j] == ByStopper(pid, StopMarks)
    ensures pid in states[j].processes && states[j].processes[pid].Stopper?
    ensures var owner := states[j].processes[pid].copy.owner;
      exists i, k :: 0 <= i < k < j && ServiceRuns(states[i], owner) && ReceiptIsOf(states[k], owner)
                  && steps[i] == ByStopper(pid, StopInspects) && steps[k] == ByStopper(pid, StopAsserts)
  {
    SeenInRun(states, steps, j, pid);
    var owner := states[j].processes[pid].copy.owner;
    var k :| 0 <= k < j && k < |steps| && k < |states| && steps[k] == ByStopper(pid, StopAsserts)
             && ReceiptIsOf(states[k], owner) && Inspected(states, steps, k, pid, owner);
    var i :| 0 <= i < k && i < |steps| && i < |states| && steps[i] == ByStopper(pid, StopInspects)
             && ServiceRuns(states[i], owner);
  }

  /** A supervisor writes and ends only after it found its service running. */
  lemma SupervisionWasChecked(states: seq<State>, steps: seq<Step>, j: nat, pid: Pid)
    requires Run(states, steps) && j < |steps| && steps[j].BySupervisor? && steps[j].pid == pid
    requires steps[j].supervision.SupervisorPersists? || steps[j].supervision.SupervisorEnds?
    ensures pid in states[j].processes && states[j].processes[pid].Supervisor?
    ensures exists i :: 0 <= i < j && steps[i] == BySupervisor(pid, SupervisorChecks)
                     && ServiceRuns(states[i], states[j].processes[pid].copy.owner)
  {
    SeenInRun(states, steps, j, pid);
    var owner := states[j].processes[pid].copy.owner;
    var i :| 0 <= i < j && i < |steps| && i < |states| && steps[i] == BySupervisor(pid, SupervisorChecks)
             && ServiceRuns(states[i], owner);
  }

  /** A lock is only asked for by a process that, once it had read its receipt, found it in the directory again. */
  lemma LockWasChecked(states: seq<State>, steps: seq<Step>, j: nat, pid: Pid)
    requires Run(states, steps) && j < |steps| && steps[j] == ByHandoff(pid, HandoffLocks)
    ensures pid in states[j].processes && states[j].processes[pid].Handoff?
    ensures exists i :: 0 <= i < j && steps[i] == ByHandoff(pid, HandoffAsserts)
                     && ReceiptIsOf(states[i], states[j].processes[pid].copy.owner)
  {
    SeenInRun(states, steps, j, pid);
    var owner := states[j].processes[pid].copy.owner;
    var i :| 0 <= i < j && i < |steps| && i < |states| && steps[i] == ByHandoff(pid, HandoffAsserts)
             && ReceiptIsOf(states[i], owner);
  }
}
