// After an unclean teardown the lease is evidence: once its finalizer has recorded that the service is
// gone, nobody ever writes the receipt or removes the lease again.
module ReviewLeaseFinal {
  import opened Text
  import opened ReviewLease
  import opened ReviewLeaseSafety
  import opened ReviewLeaseMarker
  import opened ReviewLeaseRetry

  // ------------------------------------------------- a teardown is clean, or is not

  /** Whoever works for a start that did not end cleanly knows it, and only its supervisor hands it over. */
  predicate UncleanHolds(s: State, p: Process) {
    match p
    case Supervisor(owner, _, _) => owner !in s.tornDown
    case Handoff(copy, clean, at) =>
      !clean ==> copy.owner !in s.tornDown && (at.Spawning? || at.Admitting? || copy.owner !in s.handedOver)
    case Finalizer(owner, _, at, copy) => !at.Waiting? && !copy.resourcesStopped ==> owner !in s.tornDown
    case _ => true
  }

  /** A receipt handed over uncleanly is of a start that did not end cleanly. */
  predicate UncleanReceipt(s: State) {
    s.lease.Some? && s.lease.value.receipt.Some? ==>
      var receipt := s.lease.value.receipt.value;
      receipt.finalization.Some? && !receipt.resourcesStopped ==> receipt.owner !in s.tornDown
  }

  ghost predicate Unclean(s: State) {
    UncleanReceipt(s) && forall pid :: pid in s.processes ==> UncleanHolds(s, s.processes[pid])
  }

  /** Before it is handed over, whoever will hand an unclean start over has custody. */
  lemma UncleanKeeps(s: State, pid: Pid)
    requires Inv(s) && Unclean(s) && pid in s.processes
    requires s.processes[pid].Handoff? && !s.processes[pid].clean
    ensures Keeps(s, pid, s.processes[pid].copy.owner)
  {
    assert ProcessHolds(s, pid, s.processes[pid]) && UncleanHolds(s, s.processes[pid]);
  }

  /** Only the process that has custody of a start's lease says that it was torn down or handed over. */
  ghost predicate ByCustodian(s: State, t: State, actor: Pid) {
    && (forall owner :: owner in t.tornDown && owner !in s.tornDown ==>
          Keeps(s, actor, owner) && owner !in s.handedOver)
    && (forall owner :: owner in t.handedOver && owner !in s.handedOver ==> Keeps(s, actor, owner))
  }

  /** What a process that does not move knows stays so. */
  lemma OthersStayUnclean(s: State, t: State, actor: Pid, pid: Pid)
    requires Inv(s) && Unclean(s) && ByCustodian(s, t, actor) && pid in s.processes && pid != actor
    ensures UncleanHolds(t, s.processes[pid])
  {
    var p := s.processes[pid];
    assert ProcessHolds(s, pid, p) && UncleanHolds(s, p);
    if p.Handoff? && !p.clean {
      UncleanKeeps(s, pid);
    }
  }

  /** The step leaves the other processes as they are, a new finalizer apart. */
  ghost predicate Alone(s: State, t: State, actor: Pid) {
    forall pid :: pid in t.processes && pid != actor ==>
      || (pid in s.processes && t.processes[pid] == s.processes[pid])
      || (t.processes[pid].Finalizer? && t.processes[pid].finalizer == Waiting)
  }

  lemma StayUnclean(s: State, t: State, actor: Pid)
    requires Inv(s) && Unclean(s) && ByCustodian(s, t, actor) && Alone(s, t, actor) && UncleanReceipt(t)
    requires actor in t.processes ==> UncleanHolds(t, t.processes[actor])
    ensures Unclean(t)
  {
    forall pid | pid in t.processes
      ensures UncleanHolds(t, t.processes[pid])
    {
      if pid != actor && pid in s.processes && t.processes[pid] == s.processes[pid] {
        OthersStayUnclean(s, t, actor, pid);
      }
    }
  }

  lemma StarterStaysUnclean(s: State, pid: Pid, move: StartMove)
    requires Inv(s) && Unclean(s) && MayStart(s, pid, move)
    ensures Unclean(Started(s, pid, move))
  {
    if pid in s.processes {
      assert ProcessHolds(s, pid, s.processes[pid]);
    }
    StayUnclean(s, Started(s, pid, move), pid);
  }

  lemma SupervisorStaysUnclean(s: State, pid: Pid, move: SupervisorMove)
    requires Inv(s) && Unclean(s) && MaySupervise(s, pid, move)
    ensures Unclean(Supervised(s, pid, move))
  {
    assert ProcessHolds(s, pid, s.processes[pid]) && UncleanHolds(s, s.processes[pid]);
    StayUnclean(s, Supervised(s, pid, move), pid);
  }

  lemma StopperStaysUnclean(s: State, pid: Pid, move: StopMove)
    requires Inv(s) && Unclean(s) && MayStop(s, pid, move)
    ensures Unclean(Stopped(s, pid, move))
  {
    StayUnclean(s, Stopped(s, pid, move), pid);
  }

  lemma HandoffStaysUnclean(s: State, pid: Pid, move: HandoffMove)
    requires Inv(s) && Unclean(s) && MayHandOff(s, pid, move)
    ensures Unclean(HandedOff(s, pid, move))
  {
    assert ProcessHolds(s, pid, s.processes[pid]) && UncleanHolds(s, s.processes[pid]);
    StayUnclean(s, HandedOff(s, pid, move), pid);
  }

  lemma FinalizerStaysUnclean(s: State, pid: Pid, move: FinalizerMove)
    requires Inv(s) && Unclean(s) && MayFinalize(s, pid, move)
    ensures Unclean(Finalized(s, pid, move))
  {
    assert ProcessHolds(s, pid, s.processes[pid]) && UncleanHolds(s, s.processes[pid]);
    StayUnclean(s, Finalized(s, pid, move), pid);
  }

  lemma StepStaysUnclean(s: State, step: Step)
    requires Inv(s) && Unclean(s) && Enabled(s, step)
    ensures Unclean(Apply(s, step))
  {
    match step {
      case ByStarter(pid, move) => StarterStaysUnclean(s, pid, move);
      case BySupervisor(pid, move) => SupervisorStaysUnclean(s, pid, move);
      case ByStopper(pid, move) => StopperStaysUnclean(s, pid, move);
      case ByHandoff(pid, move) => HandoffStaysUnclean(s, pid, move);
      case ByFinalizer(pid, move) => FinalizerStaysUnclean(s, pid, move);
      case ServiceLoads(pid, _) => StayUnclean(s, Apply(s, step), pid);
      case ServiceGoes(_) =>
      case Dies(_) =>
    }
  }

  lemma {:induction false} RunStaysUnclean(states: seq<State>, steps: seq<Step>, i: nat)
    requires Run(states, steps) && i < |states|
    ensures Inv(states[i]) && Unclean(states[i])
  {
    RunKeeps(states, steps, i);
    if i > 0 {
      RunStaysUnclean(states, steps, i - 1);
      StepStaysUnclean(states[i - 1], steps[i - 1]);
    }
  }

  // ----------------------------------------------------------------- the last receipt

  predicate Leaving(p: Process) {
    p.Finalizer? && (p.finalizer == FinalizerAt.Releasing || p.finalizer == FinalizerAt.ReleaseConfirmed)
  }

  /** The receipt of an unclean start that was handed over, with no one left to write it. */
  ghost predicate Last(s: State, r: Receipt) {
    && Inv(s) && Unclean(s) && Current(s, r.owner) && s.lease.value.receipt == Some(r)
    && r.finalization.Some? && !r.resourcesStopped && r.owner !in s.loaded
    && (s.lease.value.custodian.Some? ==>
          var keeper := s.lease.value.custodian.value;
          keeper in s.pids && (keeper in s.processes ==> Leaving(s.processes[keeper])))
  }

  /** No starter and no supervisor is at work, and nobody who works for this start is handing it over. */
  lemma NoneBeforeLast(s: State, r: Receipt, pid: Pid)
    requires Last(s, r) && pid in s.processes
    ensures !s.processes[pid].Starter? && !s.processes[pid].Supervisor?
    ensures s.processes[pid].Handoff? ==> s.processes[pid].copy.owner != r.owner
  {
    assert ProcessHolds(s, pid, s.processes[pid]) && UncleanHolds(s, s.processes[pid]);
    if s.processes[pid].Handoff? && !s.processes[pid].clean {
      UncleanKeeps(s, pid);
    }
  }

  /** The receipt stays, and custody stays with whoever has it or goes to nobody. */
  ghost predicate LastStill(s: State, t: State, r: Receipt) {
    && s.lease.Some? && t.lease.Some? && t.lease.value.owner == s.lease.value.owner && t.lease.value.receipt == Some(r)
    && r.owner !in t.loaded && s.pids <= t.pids
    && (t.lease.value.custodian.Some? ==>
          var keeper := t.lease.value.custodian.value;
          && t.lease.value.custodian == s.lease.value.custodian
          && (keeper in t.processes ==> Leaving(t.processes[keeper])))
  }

  lemma StopperLeavesLast(s: State, r: Receipt, pid: Pid, move: StopMove)
    requires Last(s, r) && MayStop(s, pid, move)
    ensures LastStill(s, Stopped(s, pid, move), r)
  {
  }

  lemma HandoffLeavesLast(s: State, r: Receipt, pid: Pid, move: HandoffMove)
    requires Last(s, r) && MayHandOff(s, pid, move)
    ensures LastStill(s, HandedOff(s, pid, move), r)
  {
    NoneBeforeLast(s, r, pid);
    assert ProcessHolds(s, pid, s.processes[pid]);
  }

  lemma FinalizerLeavesLast(s: State, r: Receipt, pid: Pid, move: FinalizerMove)
    requires Last(s, r) && MayFinalize(s, pid, move)
    ensures LastStill(s, Finalized(s, pid, move), r)
  {
    assert ProcessHolds(s, pid, s.processes[pid]);
  }

  lemma LastStays(s: State, r: Receipt, step: Step)
    requires Last(s, r) && Enabled(s, step)
    ensures Last(Apply(s, step), r)
  {
    StepKeeps(s, step);
    StepStaysUnclean(s, step);
    match step {
      case ByStarter(pid, _) =>
        if pid in s.processes {
          NoneBeforeLast(s, r, pid);
        }
      case BySupervisor(pid, _) => NoneBeforeLast(s, r, pid);
      case ByStopper(pid, move) => StopperLeavesLast(s, r, pid, move);
      case ByHandoff(pid, move) => HandoffLeavesLast(s, r, pid, move);
      case ByFinalizer(pid, move) => FinalizerLeavesLast(s, r, pid, move);
      case ServiceLoads(_, _) =>
      case ServiceGoes(_) =>
      case Dies(_) =>
    }
  }

  lemma {:induction false} LastThroughout(s: State, r: Receipt, states: seq<State>, steps: seq<Step>, i: nat)
    requires Last(s, r) && Onward(s, states, steps) && i < |states|
    ensures Last(states[i], r)
  {
    if i > 0 {
      LastThroughout(s, r, states, steps, i - 1);
      LastStays(states[i - 1], r, steps[i - 1]);
    }
  }

  lemma RecordingLast(s: State, pid: Pid)
    requires Inv(s) && Unclean(s) && Enabled(s, ByFinalizer(pid, FinalizerRecordsRemoval))
    ensures var t := Apply(s, ByFinalizer(pid, FinalizerRecordsRemoval));
      && t.lease.Some? && t.lease.value.receipt.Some? && Last(t, t.lease.value.receipt.value)
      && SaysRemoved(t.lease.value.receipt.value)
  {
    var step := ByFinalizer(pid, FinalizerRecordsRemoval);
    StepKeeps(s, step);
    StepStaysUnclean(s, step);
    assert ProcessHolds(s, pid, s.processes[pid]);
  }

  /** The window failed, and its service is gone. */
  predicate SaysRemoved(r: Receipt) {
    r.phase == Failed && r.finalization.Some? && r.finalization.value.outcome == NativeRemoved
  }

  /** A stop command that reads this receipt goes no further than looking for the service. */
  ghost predicate StopGetsNowhere(s: State, r: Receipt) {
    && r.owner !in s.loaded
    && forall stop :: Enabled(s, ByStopper(stop, StopReads)) ==>
         Apply(s, ByStopper(stop, StopReads)).processes == s.processes[stop := Stopper(r, Inspecting)]
  }

  /**
   * What a finalizer records after an unclean teardown, once the service is gone, is the last receipt: in
   * every continuation the lease and the receipt stay, and no stop command gets past looking for the
   * service, so none begins another attempt.
   */
  lemma RemovalIsFinal(s: State, pid: Pid, states: seq<State>, steps: seq<Step>, i: nat)
    requires Reachable(s) && Enabled(s, ByFinalizer(pid, FinalizerRecordsRemoval))
    requires Onward(Apply(s, ByFinalizer(pid, FinalizerRecordsRemoval)), states, steps) && i < |states|
    ensures states[i].lease.Some? && states[i].lease.value.receipt == states[0].lease.value.receipt
    ensures states[i].lease.value.receipt.Some? && StopGetsNowhere(states[i], states[i].lease.value.receipt.value)
    ensures SaysRemoved(states[i].lease.value.receipt.value)
  {
    LastBegins(s, pid);
    var r := states[0].lease.value.receipt.value;
    LastThroughout(states[0], r, states, steps, i);
    LastStopsNobody(states[i], r);
  }

  lemma LastBegins(s: State, pid: Pid)
    requires Reachable(s) && Enabled(s, ByFinalizer(pid, FinalizerRecordsRemoval))
    ensures var t := Apply(s, ByFinalizer(pid, FinalizerRecordsRemoval));
      && t.lease.Some? && t.lease.value.receipt.Some? && Last(t, t.lease.value.receipt.value)
      && SaysRemoved(t.lease.value.receipt.value)
  {
    var before, moves :| Run(before, moves) && before[|moves|] == s;
    RunStaysUnclean(before, moves, |moves|);
    RecordingLast(s, pid);
  }

  lemma LastStopsNobody(s: State, r: Receipt)
    requires Last(s, r)
    ensures StopGetsNowhere(s, r)
  {
  }

  // ------------------------------------------------------------ what an outcome says

  /** Where a receipt says that the service was removed, it is gone, and it never comes back. */
  predicate Honest(s: State, r: Receipt) {
    r.finalization.Some? && r.finalization.value.outcome == NativeRemoved ==>
      r.owner in s.everLoaded && r.owner !in s.loaded
  }

  predicate HonestProcess(s: State, p: Process) {
    !p.Starter? ==> Honest(s, p.copy)
  }

  ghost predicate AllHonest(s: State) {
    && (s.lease.Some? && s.lease.value.receipt.Some? ==> Honest(s, s.lease.value.receipt.value))
    && forall pid :: pid in s.processes ==> HonestProcess(s, s.processes[pid])
  }

  lemma StarterStaysHonest(s: State, pid: Pid, move: StartMove)
    requires AllHonest(s) && MayStart(s, pid, move)
    ensures AllHonest(Started(s, pid, move))
  {
  }

  lemma StopperStaysHonest(s: State, pid: Pid, move: StopMove)
    requires AllHonest(s) && MayStop(s, pid, move)
    ensures AllHonest(Stopped(s, pid, move))
  {
  }

  lemma HandoffStaysHonest(s: State, pid: Pid, move: HandoffMove)
    requires AllHonest(s) && MayHandOff(s, pid, move)
    ensures AllHonest(HandedOff(s, pid, move))
  {
    assert HonestProcess(s, s.processes[pid]);
  }

  lemma FinalizerStaysHonest(s: State, pid: Pid, move: FinalizerMove)
    requires Inv(s) && AllHonest(s) && MayFinalize(s, pid, move)
    ensures AllHonest(Finalized(s, pid, move))
  {
    assert HonestProcess(s, s.processes[pid]) && ProcessHolds(s, pid, s.processes[pid]);
  }

  lemma SupervisorStaysHonest(s: State, pid: Pid, move: SupervisorMove)
    requires AllHonest(s) && MaySupervise(s, pid, move)
    ensures AllHonest(Supervised(s, pid, move))
  {
    assert HonestProcess(s, s.processes[pid]);
  }

  lemma StepStaysHonest(s: State, step: Step)
    requires Inv(s) && AllHonest(s) && Enabled(s, step)
    ensures AllHonest(Apply(s, step))
  {
    match step {
      case ByStarter(pid, move) => StarterStaysHonest(s, pid, move);
      case BySupervisor(pid, move) => SupervisorStaysHonest(s, pid, move);
      case ByStopper(pid, move) => StopperStaysHonest(s, pid, move);
      case ByHandoff(pid, move) => HandoffStaysHonest(s, pid, move);
      case ByFinalizer(pid, move) => FinalizerStaysHonest(s, pid, move);
      case ServiceLoads(pid, owner) => LoadStaysHonest(s, pid, owner);
      case ServiceGoes(_) =>
      case Dies(_) =>
    }
  }

  lemma LoadStaysHonest(s: State, pid: Pid, owner: Label)
    requires AllHonest(s) && Enabled(s, ServiceLoads(pid, owner))
    ensures AllHonest(Apply(s, ServiceLoads(pid, owner)))
  {
  }

  /** In every run, a receipt that says `native-removed` is of a service that is gone. */
  lemma {:induction false} RemovedIsTrue(states: seq<State>, steps: seq<Step>, i: nat)
    requires Run(states, steps) && i < |states|
    ensures AllHonest(states[i])
    decreases i
  {
    if i > 0 {
      RemovedIsTrue(states, steps, i - 1);
      RunKeeps(states, steps, i - 1);
      StepStaysHonest(states[i - 1], steps[i - 1]);
    }
  }
}
