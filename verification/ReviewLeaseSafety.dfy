// What the review-window protocol guarantees over every run, crash and interleaving.
module ReviewLeaseSafety {
  import opened Text
  import opened ReviewLease

  /** A run: the states a sequence of steps goes through, from an empty machine. */
  ghost predicate Run(states: seq<State>, steps: seq<Step>) {
    && |states| == |steps| + 1
    && states[0] == INITIAL
    && forall i :: 0 <= i < |steps| ==> Enabled(states[i], steps[i]) && states[i + 1] == Apply(states[i], steps[i])
  }

  lemma {:induction false} RunKeeps(states: seq<State>, steps: seq<Step>, i: nat)
    requires Run(states, steps) && i < |states|
    ensures Inv(states[i])
  {
    if i == 0 {
      InitialHolds();
    } else {
      RunKeeps(states, steps, i - 1);
      StepKeeps(states[i - 1], steps[i - 1]);
    }
  }

  // ------------------------------------------------------------ lease removal

  /** The lease is removed by its own start, before the service manager ever heard of it. */
  predicate AbortedStart(s: State, step: Step) {
    && step.ByStarter? && step.start.StartAbort?
    && step.pid in s.processes && s.processes[step.pid].Starter?
    && s.lease.Some? && s.lease.value.owner == s.processes[step.pid].owner
    && s.lease.value.owner !in s.bootstrapped
  }

  /** The lease is removed by the finalizer its receipt names, after clean teardown, with the service gone. */
  predicate FinalizedCleanly(s: State, step: Step) {
    && step.ByFinalizer? && step.finalization.FinalizerRemoves?
    && step.pid in s.processes && s.processes[step.pid].Finalizer?
    && s.lease.Some? && s.lease.value.receipt.Some?
    && var lease, receipt := s.lease.value, s.lease.value.receipt.value;
      && lease.owner in s.everLoaded && lease.owner !in s.loaded
      && receipt.owner == lease.owner && receipt.resourcesStopped && lease.owner in s.tornDown
      && receipt.finalization.Some?
      && receipt.finalization.value.token == s.processes[step.pid].token
      && receipt.finalization.value.pid == Some(step.pid)
  }

  /** The lease stays the lease of its start, or is removed in one of the two ways. */
  predicate SafelyRemoved(s: State, step: Step, t: State)
    requires s.lease.Some?
  {
    if t.lease.Some? then t.lease.value.owner == s.lease.value.owner
    else AbortedStart(s, step) || FinalizedCleanly(s, step)
  }

  lemma StarterRemoves(s: State, pid: Pid, move: StartMove)
    requires Inv(s) && MayStart(s, pid, move) && s.lease.Some?
    ensures SafelyRemoved(s, ByStarter(pid, move), Started(s, pid, move))
  {
    assert ProcessHolds(s, pid, s.processes[pid]);
  }

  lemma OthersRemoveNothing(s: State, step: Step)
    requires Enabled(s, step) && (step.BySupervisor? || step.ByStopper? || step.ByHandoff?) && s.lease.Some?
    ensures SafelyRemoved(s, step, Apply(s, step))
  {
  }

  lemma FinalizerRemovesSafely(s: State, pid: Pid, move: FinalizerMove)
    requires Inv(s) && MayFinalize(s, pid, move) && s.lease.Some?
    ensures SafelyRemoved(s, ByFinalizer(pid, move), Finalized(s, pid, move))
  {
    assert ProcessHolds(s, pid, s.processes[pid]);
  }

  lemma RemovalStep(s: State, step: Step)
    requires Inv(s) && Enabled(s, step) && s.lease.Some?
    ensures SafelyRemoved(s, step, Apply(s, step))
  {
    match step {
      case ByStarter(pid, move) => StarterRemoves(s, pid, move);
      case ByFinalizer(pid, move) => FinalizerRemovesSafely(s, pid, move);
      case BySupervisor(_, _) => OthersRemoveNothing(s, step);
      case ByStopper(_, _) => OthersRemoveNothing(s, step);
      case ByHandoff(_, _) => OthersRemoveNothing(s, step);
      case _ =>
    }
  }

  /**
   * Over every run a lease is never replaced by another, and it is removed only by a start that
   * failed before bootstrap or by the finalizer its receipt names, after clean teardown and with
   * the service gone.
   */
  lemma LeaseRemovalIsSafe(states: seq<State>, steps: seq<Step>, i: nat)
    requires Run(states, steps) && i < |steps| && states[i].lease.Some?
    ensures states[i + 1].lease.Some? ==> states[i + 1].lease.value.owner == states[i].lease.value.owner
    ensures states[i + 1].lease.None? ==> AbortedStart(states[i], steps[i]) || FinalizedCleanly(states[i], steps[i])
  {
    RunKeeps(states, steps, i);
    RemovalStep(states[i], steps[i]);
  }

  // ----------------------------------------------------------- single writer

  /** The process whose step it is, if it is a process's. */
  function Actor(step: Step): Option<Pid> {
    match step
    case ServiceGoes(_) => None
    case _ => Some(step.pid)
  }

  /** The process may write the receipt at its next step. */
  predicate MayWrite(s: State, pid: Pid) {
    pid in s.processes && match s.processes[pid]
      case Starter(_, at) => at.Made?
      case Supervisor(_, at, _) => at.Serving?
      case Stopper(_, _) => false
      case Handoff(_, _, at) => at.Persisting? || at.Admitting?
      case Finalizer(_, _, at, copy) => at.FailConfirmed? || (at.Confirmed? && !copy.resourcesStopped)
  }

  /** The receipt changes while the lease stays. */
  predicate Writes(before: State, after: State) {
    before.lease.Some? && after.lease.Some? && after.lease.value.receipt != before.lease.value.receipt
  }

  lemma MayWriteKeeps(s: State, pid: Pid)
    requires Inv(s) && MayWrite(s, pid)
    ensures s.lease.Some? && s.lease.value.custodian == Some(pid)
  {
    assert ProcessHolds(s, pid, s.processes[pid]);
  }

  lemma WriteNeedsPermission(s: State, step: Step)
    requires Inv(s) && Enabled(s, step) && Writes(s, Apply(s, step))
    ensures Actor(step).Some? && MayWrite(s, Actor(step).value)
  {
    match step {
      case ByStarter(pid, move) => StarterWrites(s, pid, move);
      case ByFinalizer(pid, move) => FinalizerWrites(s, pid, move);
      case ByHandoff(pid, move) => HandoffWrites(s, pid, move);
      case _ =>
    }
  }

  lemma StarterWrites(s: State, pid: Pid, move: StartMove)
    requires MayStart(s, pid, move) && Writes(s, Started(s, pid, move))
    ensures MayWrite(s, pid)
  {
  }

  lemma HandoffWrites(s: State, pid: Pid, move: HandoffMove)
    requires MayHandOff(s, pid, move) && Writes(s, HandedOff(s, pid, move))
    ensures MayWrite(s, pid)
  {
  }

  lemma FinalizerWrites(s: State, pid: Pid, move: FinalizerMove)
    requires MayFinalize(s, pid, move) && Writes(s, Finalized(s, pid, move))
    ensures MayWrite(s, pid)
  {
  }

  /** In every reachable state at most one process may write the receipt, and no other does. */
  lemma SingleWriter(states: seq<State>, steps: seq<Step>, i: nat)
    requires Run(states, steps) && i < |states|
    ensures forall p, q :: MayWrite(states[i], p) && MayWrite(states[i], q) ==> p == q
    ensures i < |steps| && Writes(states[i], states[i + 1]) ==>
      Actor(steps[i]).Some? && MayWrite(states[i], Actor(steps[i]).value)
  {
    RunKeeps(states, steps, i);
    forall p, q | MayWrite(states[i], p) && MayWrite(states[i], q)
      ensures p == q
    {
      MayWriteKeeps(states[i], p);
      MayWriteKeeps(states[i], q);
    }
    if i < |steps| && Writes(states[i], states[i + 1]) {
      WriteNeedsPermission(states[i], steps[i]);
    }
  }

  /**
   * A finalizer writes only while the receipt on disk names it; and by then nobody is left to
   * write its pid into the receipt.
   */
  lemma NamedBeforeWriting(states: seq<State>, steps: seq<Step>, i: nat, pid: Pid)
    requires Run(states, steps) && i < |states| && MayWrite(states[i], pid) && states[i].processes[pid].Finalizer?
    ensures OwnsFinalization(states[i], pid, states[i].processes[pid].copy)
    ensures forall parent :: !StillAdmits(states[i], parent, pid)
  {
    RunKeeps(states, steps, i);
    MayWriteKeeps(states[i], pid);
    assert ProcessHolds(states[i], pid, states[i].processes[pid]);
    forall parent: Pid
      ensures !StillAdmits(states[i], parent, pid)
    {
      if StillAdmits(states[i], parent, pid) {
        MayWriteKeeps(states[i], parent);
      }
    }
  }

  /** `parent` has yet to write the pid of `child` into the receipt. */
  predicate StillAdmits(s: State, parent: Pid, child: Pid) {
    parent in s.processes && s.processes[parent].Handoff? && s.processes[parent].handoff == Admitting(child)
  }

  /** The process has begun to finalize the lease on disk: it holds the lock, or was handed it. */
  predicate Attempting(s: State, pid: Pid) {
    pid in s.processes && match s.processes[pid]
      case Handoff(copy, _, at) =>
        Current(s, copy.owner) && (at.Reasserting? || at.Refused? || at.Persisting? || at.Spawning? || at.Admitting?)
      case Finalizer(owner, _, at, _) => Current(s, owner) && !at.Waiting? && !at.Entering?
      case _ => false
  }

  lemma AttemptKeeps(s: State, pid: Pid)
    requires Inv(s) && Attempting(s, pid)
    ensures s.lease.value.custodian == Some(pid) && s.lease.value.owner in s.lease.value.locks
  {
    assert ProcessHolds(s, pid, s.processes[pid]);
  }

  /** At most one finalization attempt is under way on a lease, and it is under its lock. */
  lemma OneAttemptAtATime(states: seq<State>, steps: seq<Step>, i: nat)
    requires Run(states, steps) && i < |states|
    ensures forall p, q :: Attempting(states[i], p) && Attempting(states[i], q) ==> p == q
    ensures forall p :: Attempting(states[i], p) ==> states[i].lease.value.owner in states[i].lease.value.locks
  {
    var s := states[i];
    RunKeeps(states, steps, i);
    forall p: Pid | Attempting(s, p)
      ensures s.lease.value.custodian == Some(p) && s.lease.value.owner in s.lease.value.locks
    {
      AttemptKeeps(s, p);
    }
  }

  // ----------------------------------------------------------- stale controls

  /** The start whose receipt a process works for. */
  function WorksFor(p: Process): Label {
    match p
    case Starter(owner, _) => owner
    case Supervisor(owner, _, _) => owner
    case Stopper(copy, _) => copy.owner
    case Handoff(copy, _, _) => copy.owner
    case Finalizer(owner, _, _, _) => owner
  }

  /** The step changes nothing of the lease but what is named by `owner`. */
  predicate OnlyOwnNames(before: Lease, after: Lease, owner: Label) {
    && after.owner == before.owner && after.receipt == before.receipt && after.plist == before.plist
    && after.custodian == before.custodian
    && after.locks - {owner} == before.locks - {owner}
    && after.markers - {owner} == before.markers - {owner}
  }

  /** The three ways a process of an old start can leave a trace in a newer lease. */
  predicate LeavesTrace(s: State, step: Step, owner: Label)
    requires s.lease.Some?
  {
    || (step.ByHandoff? && step.handoff.HandoffLocks? && owner !in s.lease.value.locks)
    || (step.ByHandoff? && step.handoff.HandoffUnlocks? && owner in s.lease.value.locks)
    || (step.ByStopper? && step.stop.StopMarks? && owner !in s.lease.value.markers)
  }

  /** What a stale step does to the newer lease. */
  ghost predicate StaleHolds(s: State, step: Step, owner: Label, t: State)
    requires s.lease.Some?
  {
    && t.lease.Some?
    && OnlyOwnNames(s.lease.value, t.lease.value, owner)
    && (t.lease == s.lease <==> !LeavesTrace(s, step, owner))
  }

  lemma StaleHandoff(s: State, pid: Pid, move: HandoffMove)
    requires Inv(s) && MayHandOff(s, pid, move) && s.lease.Some?
    requires WorksFor(s.processes[pid]) != s.lease.value.owner
    ensures StaleHolds(s, ByHandoff(pid, move), WorksFor(s.processes[pid]), HandedOff(s, pid, move))
  {
    assert ProcessHolds(s, pid, s.processes[pid]);
    var lease, owner := s.lease.value, WorksFor(s.processes[pid]);
    assert owner !in lease.locks ==> lease.locks - {owner} == lease.locks;
  }

  lemma StaleStopper(s: State, pid: Pid, move: StopMove)
    requires MayStop(s, pid, move) && pid in s.processes && s.lease.Some?
    requires WorksFor(s.processes[pid]) != s.lease.value.owner
    ensures StaleHolds(s, ByStopper(pid, move), WorksFor(s.processes[pid]), Stopped(s, pid, move))
  {
    var lease, owner := s.lease.value, WorksFor(s.processes[pid]);
    assert owner in lease.markers ==> lease.markers + {owner} == lease.markers;
  }

  /** A finalizer of an older start has no move left. */
  lemma StaleFinalizerIsStuck(s: State, pid: Pid, move: FinalizerMove)
    requires Inv(s) && pid in s.processes && s.processes[pid].Finalizer? && s.lease.Some?
    requires WorksFor(s.processes[pid]) != s.lease.value.owner
    ensures !MayFinalize(s, pid, move)
  {
    assert ProcessHolds(s, pid, s.processes[pid]);
  }

  lemma StaleStep(s: State, step: Step, pid: Pid)
    requires Inv(s) && Enabled(s, step) && Actor(step) == Some(pid) && pid in s.processes
    requires s.lease.Some? && WorksFor(s.processes[pid]) != s.lease.value.owner
    ensures StaleHolds(s, step, WorksFor(s.processes[pid]), Apply(s, step))
  {
    assert ProcessHolds(s, pid, s.processes[pid]);
    match step {
      case ByHandoff(_, move) => StaleHandoff(s, pid, move);
      case ByStopper(_, move) => StaleStopper(s, pid, move);
      case ByFinalizer(_, move) =>
        StaleFinalizerIsStuck(s, pid, move);
        assert false;
      case _ =>
    }
  }

  /**
   * A process that works for an older start never changes a newer lease's receipt, service file
   * or anything not named by its own start; and it changes the lease at all exactly when it makes
   * or removes its own lock, or leaves its own stop marker.
   */
  lemma StaleControlsAreHarmless(states: seq<State>, steps: seq<Step>, i: nat, pid: Pid)
    requires Run(states, steps) && i < |steps| && Actor(steps[i]) == Some(pid) && pid in states[i].processes
    requires states[i].lease.Some? && WorksFor(states[i].processes[pid]) != states[i].lease.value.owner
    ensures states[i + 1].lease.Some?
    ensures OnlyOwnNames(states[i].lease.value, states[i + 1].lease.value, WorksFor(states[i].processes[pid]))
    ensures states[i + 1].lease == states[i].lease
      <==> !LeavesTrace(states[i], steps[i], WorksFor(states[i].processes[pid]))
  {
    RunKeeps(states, steps, i);
    StaleStep(states[i], steps[i], pid);
  }

  /**
   * A lock made in a newer lease is taken away again by the only two steps its maker has left,
   * unless it dies before the second; a maker that dies leaves the lock.
   */
  lemma StaleLockIsRemoved(states: seq<State>, steps: seq<Step>, i: nat, pid: Pid)
    requires Run(states, steps) && i < |steps| && Actor(steps[i]) == Some(pid)
    requires pid in states[i].processes && states[i].processes[pid].Handoff? && states[i].lease.Some?
    requires !Current(states[i], states[i].processes[pid].copy.owner)
    requires states[i].processes[pid].handoff.Reasserting? || states[i].processes[pid].handoff.Refused?
    ensures var owner, now, after := states[i].processes[pid].copy.owner, states[i], states[i + 1];
      if steps[i].Dies? then after.lease == now.lease && pid !in after.processes
      else if now.processes[pid].handoff.Reasserting? then
        after.lease == now.lease && pid in after.processes
          && after.processes[pid] == now.processes[pid].(handoff := Refused)
      else after.lease.Some? && owner !in after.lease.value.locks && pid !in after.processes
  {
    RunKeeps(states, steps, i);
    assert ProcessHolds(states[i], pid, states[i].processes[pid]);
    assert Enabled(states[i], steps[i]);
  }
}
