// What a recorded failure leaves to be done: when a stop command can begin a new attempt and bring the
// lease to an end, and when none ever can.
module ReviewLeaseRetry {
  import opened Text
  import opened ReviewLease
  import opened ReviewLeaseSafety
  import opened ReviewLeaseMarker

  // --------------------------------------------------------------------- going on

  /** A run that goes on from `s`. */
  ghost predicate Onward(s: State, states: seq<State>, steps: seq<Step>) {
    && |states| == |steps| + 1 && states[0] == s
    && forall i :: 0 <= i < |steps| ==> Enabled(states[i], steps[i]) && states[i + 1] == Apply(states[i], steps[i])
  }

  /** The step is one of these processes' own; crashes and the service manager's are nobody's. */
  predicate Theirs(step: Step, pids: set<Pid>) {
    match step
    case ByStarter(pid, _) => pid in pids
    case BySupervisor(pid, _) => pid in pids
    case ByStopper(pid, _) => pid in pids
    case ByHandoff(pid, _) => pid in pids
    case ByFinalizer(pid, _) => pid in pids
    case _ => false
  }

  /** These processes alone can take the machine from `s` to `t`. */
  ghost predicate CanReach(s: State, t: State, pids: set<Pid>) {
    exists states, steps :: Onward(s, states, steps) && states[|steps|] == t
                         && forall i :: 0 <= i < |steps| ==> Theirs(steps[i], pids)
  }

  lemma Standing(s: State, pids: set<Pid>)
    ensures CanReach(s, s, pids)
  {
    var states, steps: seq<Step> := [s], [];
    assert Onward(s, states, steps) && states[|steps|] == s;
  }

  lemma Further(s: State, m: State, pids: set<Pid>, step: Step) returns (t: State)
    requires CanReach(s, m, pids) && Enabled(m, step) && Theirs(step, pids)
    ensures t == Apply(m, step) && CanReach(s, t, pids)
  {
    t := Apply(m, step);
    var states, steps :| Onward(s, states, steps) && states[|steps|] == m
                         && forall i :: 0 <= i < |steps| ==> Theirs(steps[i], pids);
    var more, last := steps + [step], states + [t];
    assert Onward(s, last, more) && last[|more|] == t;
  }

  // ---------------------------------------------------------------------- a retry

  /** The receipt of a clean teardown whose last attempt failed lies there, and no attempt holds the lock. */
  predicate Retryable(s: State, r: Receipt) {
    && s.lease.Some? && s.lease.value.receipt == Some(r)
    && r.resourcesStopped && r.phase == FinalizationFailed && r.owner !in s.lease.value.locks
  }

  lemma Releasing(s: State, pid: Pid, r: Receipt, pids: set<Pid>) returns (t: State)
    requires IsFinalizer(s, pid, FinalizerAt.Releasing) && pid in pids
    requires OwnsFinalization(s, pid, s.processes[pid].copy)
    requires s.processes[pid].owner == r.owner && s.lease.value.receipt == Some(r)
    requires r.resourcesStopped && r.phase == FinalizationFailed && pid in s.pids
    ensures CanReach(s, t, pids) && Retryable(t, r) && t.pids == s.pids && t.issued == s.issued
  {
    Standing(s, pids);
    t := Further(s, s, pids, ByFinalizer(pid, FinalizerConfirmsRelease));
    t := Further(s, t, pids, ByFinalizer(pid, FinalizerReleases));
  }

  lemma Taking(s: State, u: State, stop: Pid, r: Receipt, pids: set<Pid>) returns (t: State)
    requires CanReach(s, u, pids) && Retryable(u, r) && stop !in u.pids && stop in pids
    ensures CanReach(s, t, pids) && t.pids == u.pids + {stop} && t.issued == u.issued
    ensures t.lease.Some? && IsHandoff(t, stop, Persisting)
    ensures t.processes[stop].clean && t.processes[stop].copy == r
  {
    t := Further(s, u, pids, ByStopper(stop, StopReads));
    t := Further(s, t, pids, ByHandoff(stop, HandoffAsserts));
    t := Further(s, t, pids, ByHandoff(stop, HandoffLocks));
    t := Further(s, t, pids, ByHandoff(stop, HandoffReasserts(true)));
  }

  /** A finalizer that has not yet read the receipt, which names it after a clean teardown. */
  predicate Named(s: State, child: Pid, owner: Label) {
    && IsFinalizer(s, child, Waiting) && s.processes[child].owner == owner && SameLease(s, owner)
    && s.lease.value.receipt.value.resourcesStopped
    && s.lease.value.receipt.value.finalization == Some(Finalization(s.processes[child].token, Some(child), Pending))
  }

  lemma HandingOver(s: State, u: State, stop: Pid, child: Pid, token: Token, pids: set<Pid>) returns (t: State)
    requires CanReach(s, u, pids) && u.lease.Some? && IsHandoff(u, stop, Persisting) && u.processes[stop].clean
    requires stop in u.pids && child !in u.pids && token !in u.issued && stop in pids
    ensures CanReach(s, t, pids) && Named(t, child, u.processes[stop].copy.owner)
  {
    t := Further(s, u, pids, ByHandoff(stop, HandoffPersists(token)));
    t := Further(s, t, pids, ByHandoff(stop, HandoffSpawns(child)));
    t := Further(s, t, pids, ByHandoff(stop, HandoffAdmits));
  }

  lemma Finishing(s: State, u: State, child: Pid, owner: Label, pids: set<Pid>) returns (t: State)
    requires CanReach(s, u, pids) && Named(u, child, owner) && child in pids
    ensures CanReach(s, t, pids) && t.lease.None?
  {
    t := Further(s, u, pids, ByFinalizer(child, FinalizerReads));
    t := Further(s, t, pids, ByFinalizer(child, FinalizerEnters));
    t := Further(s, t, pids, ByFinalizer(child, FinalizerEvicts));
    t := Further(s, t, pids, ByFinalizer(child, FinalizerSees));
    t := Further(s, t, pids, ByFinalizer(child, FinalizerConfirms));
    t := Further(s, t, pids, ByFinalizer(child, FinalizerRemoves));
  }

  /** The finalizer is about to record that its attempt after a clean teardown failed. */
  predicate Fails(s: State, pid: Pid) {
    Enabled(s, ByFinalizer(pid, FinalizerRecordsFailure)) && s.processes[pid].copy.resourcesStopped
  }

  /**
   * A failure recorded after a clean teardown can be retried: its finalizer lets the lock go, and a fresh
   * stop command and its fresh finalizer alone can remove the lease.
   */
  lemma FailureCanBeRetried(s: State, pid: Pid, stop: Pid, child: Pid, token: Token) returns (t: State)
    requires Inv(s) && Fails(s, pid) && s.processes[pid].copy.finalization.value.pid.Some?
    requires stop !in s.pids && child !in s.pids && child != stop && token !in s.issued
    ensures CanReach(Apply(s, ByFinalizer(pid, FinalizerRecordsFailure)), t, {pid, stop, child}) && t.lease.None?
  {
    var u := Apply(s, ByFinalizer(pid, FinalizerRecordsFailure));
    assert ProcessHolds(s, pid, s.processes[pid]);
    var pids, r := {pid, stop, child}, u.lease.value.receipt.value;
    t := Releasing(u, pid, r, pids);
    t := Taking(u, t, stop, r, pids);
    t := HandingOver(u, t, stop, child, token, pids);
    t := Finishing(u, t, child, r.owner, pids);
  }

  // ------------------------------------------------------------------ stuck for good

  /**
   * The receipt names no finalizer, and the lock is in the custody of a finalizer that can only check
   * that it is named, or is gone.
   */
  ghost predicate Stuck(s: State, owner: Label, pid: Pid) {
    && Inv(s) && Keeps(s, pid, owner) && owner in s.lease.value.locks && owner in s.handedOver && pid in s.pids
    && s.lease.value.receipt.Some?
    && s.lease.value.receipt.value.finalization.Some? && s.lease.value.receipt.value.finalization.value.pid.None?
    && (pid in s.processes ==> s.processes[pid].Finalizer? && s.processes[pid].finalizer == FinalizerAt.Releasing)
  }

  /** The lock, custody and the receipt are as they were, and the process with custody is where it was or gone. */
  ghost predicate StuckStill(s: State, t: State, pid: Pid) {
    && s.lease.Some? && t.lease.Some?
    && t.lease.value == s.lease.value.(locks := t.lease.value.locks, markers := t.lease.value.markers)
    && (s.lease.value.owner in s.lease.value.locks ==> s.lease.value.owner in t.lease.value.locks)
    && s.handedOver <= t.handedOver && s.pids <= t.pids
    && (pid in t.processes ==> pid in s.processes && t.processes[pid] == s.processes[pid])
  }

  /** No starter and no supervisor is at work: one would have custody. */
  lemma NoneBefore(s: State, owner: Label, pid: Pid, q: Pid)
    requires Stuck(s, owner, pid) && q in s.processes
    ensures !s.processes[q].Starter? && !s.processes[q].Supervisor?
  {
    assert ProcessHolds(s, q, s.processes[q]);
  }

  lemma StopperLeavesStuck(s: State, owner: Label, pid: Pid, q: Pid, move: StopMove)
    requires Stuck(s, owner, pid) && MayStop(s, q, move)
    ensures StuckStill(s, Stopped(s, q, move), pid)
  {
  }

  lemma HandoffLeavesStuck(s: State, owner: Label, pid: Pid, q: Pid, move: HandoffMove)
    requires Stuck(s, owner, pid) && MayHandOff(s, q, move)
    ensures StuckStill(s, HandedOff(s, q, move), pid)
  {
    assert ProcessHolds(s, q, s.processes[q]);
  }

  lemma FinalizerLeavesStuck(s: State, owner: Label, pid: Pid, q: Pid, move: FinalizerMove)
    requires Stuck(s, owner, pid) && MayFinalize(s, q, move)
    ensures StuckStill(s, Finalized(s, q, move), pid)
  {
    assert ProcessHolds(s, q, s.processes[q]);
  }

  lemma StuckStays(s: State, owner: Label, pid: Pid, step: Step)
    requires Stuck(s, owner, pid) && Enabled(s, step)
    ensures Stuck(Apply(s, step), owner, pid)
  {
    StepKeeps(s, step);
    match step {
      case ByStarter(q, move) =>
        if q in s.processes {
          NoneBefore(s, owner, pid, q);
        }
      case BySupervisor(q, move) => NoneBefore(s, owner, pid, q);
      case ByStopper(q, move) => StopperLeavesStuck(s, owner, pid, q, move);
      case ByHandoff(q, move) => HandoffLeavesStuck(s, owner, pid, q, move);
      case ByFinalizer(q, move) => FinalizerLeavesStuck(s, owner, pid, q, move);
      case ServiceLoads(_, _) =>
      case ServiceGoes(_) =>
      case Dies(_) =>
    }
  }

  lemma {:induction false} StuckThroughout(s: State, owner: Label, pid: Pid, states: seq<State>, steps: seq<Step>,
                                            i: nat)
    requires Stuck(s, owner, pid) && Onward(s, states, steps) && i < |states|
    ensures Stuck(states[i], owner, pid)
  {
    if i > 0 {
      StuckThroughout(s, owner, pid, states, steps, i - 1);
      StuckStays(states[i - 1], owner, pid, steps[i - 1]);
    }
  }

  /** Some way on takes the lease away. */
  ghost predicate CanEnd(s: State) {
    exists states: seq<State>, steps: seq<Step> :: Onward(s, states, steps) && states[|steps|].lease.None?
  }

  lemma FailureWithoutPidIsStuck(s: State, pid: Pid)
    requires Inv(s) && Fails(s, pid) && s.processes[pid].copy.finalization.value.pid.None?
    ensures Stuck(Apply(s, ByFinalizer(pid, FinalizerRecordsFailure)), s.processes[pid].owner, pid)
  {
    StepKeeps(s, ByFinalizer(pid, FinalizerRecordsFailure));
    assert ProcessHolds(s, pid, s.processes[pid]);
  }

  lemma {:induction false} Above(pids: set<nat>) returns (n: nat)
    ensures forall pid :: pid in pids ==> pid < n
    decreases |pids|
  {
    n := 0;
    if pids != {} {
      var one :| one in pids;
      var m := Above(pids - {one});
      n := if one < m then m else one + 1;
      assert pids == (pids - {one}) + {one};
    }
  }

  /** There are a stop command, a finalizer and a token nobody has used. */
  lemma Unused(s: State) returns (stop: Pid, child: Pid, token: Token)
    ensures stop !in s.pids && child !in s.pids && child != stop && token !in s.issued
  {
    stop := Above(s.pids);
    child := stop + 1;
    token := Above(s.issued.Keys);
  }

  /**
   * After a failure recorded for a clean teardown the lease can still go if and only if the finalizer had
   * read its own pid in the receipt; else the receipt it writes back names nobody, and the lock stays.
   */
  lemma FailureRetriedExactly(s: State, pid: Pid)
    requires Inv(s) && Fails(s, pid)
    ensures CanEnd(Apply(s, ByFinalizer(pid, FinalizerRecordsFailure)))
       <==> s.processes[pid].copy.finalization.value.pid == Some(pid)
  {
    var u := Apply(s, ByFinalizer(pid, FinalizerRecordsFailure));
    assert ProcessHolds(s, pid, s.processes[pid]);
    if s.processes[pid].copy.finalization.value.pid.Some? {
      var stop, child, token := Unused(s);
      var t := FailureCanBeRetried(s, pid, stop, child, token);
    } else {
      FailureWithoutPidIsStuck(s, pid);
      forall states: seq<State>, steps: seq<Step> | Onward(u, states, steps)
        ensures states[|steps|].lease.Some?
      {
        StuckThroughout(u, s.processes[pid].owner, pid, states, steps, |steps|);
      }
    }
  }

  /** A finalizer that read the receipt at its deadline, just before its parent wrote the pid, gets there. */
  lemma FailureCanBeStuck()
    ensures exists s, pid :: Reachable(s) && Fails(s, pid) && s.processes[pid].copy.finalization.value.pid.None?
                          && !CanEnd(Apply(s, ByFinalizer(pid, FinalizerRecordsFailure)))
  {
    var s := Opening();
    s := Asking(s);
    s := Closing(s);
    s := ReviewLeaseMarker.Locking(s);
    s := ReadingEarly(s);
    s := EnteringUnnamed(s);
    s := FailingUnnamed(s);
    ReachableHolds(s);
    FailureRetriedExactly(s, 4);
    assert Fails(s, 4);
  }

  lemma ReachableHolds(s: State)
    requires Reachable(s)
    ensures Inv(s)
  {
    var states, steps :| Run(states, steps) && states[|steps|] == s;
    RunKeeps(states, steps, |steps|);
  }

  /** Process 4 has read the receipt before process 2 named it there. */
  predicate ReadEarly(s: State) {
    && SameLease(s, 1) && s.lease.value.receipt.value.finalization == Some(Finalization(7, Some(4), Pending))
    && IsFinalizer(s, 4, Entering) && s.processes[4].copy.owner == 1 && s.processes[4].copy.resourcesStopped
    && s.processes[4].copy.finalization == Some(Finalization(7, None, Pending))
  }

  lemma ReadingEarly(start: State) returns (s: State)
    requires Reachable(start) && ReviewLeaseMarker.Held(start)
    ensures Reachable(s) && ReadEarly(s)
  {
    s := Then(start, ByHandoff(2, HandoffPersists(7)));
    s := Then(s, ByHandoff(2, HandoffSpawns(4)));
    s := Then(s, ByFinalizer(4, FinalizerReads));
    s := Then(s, ByHandoff(2, HandoffAdmits));
  }

  /** Its check passed, and it works from the receipt without its name. */
  predicate Unnamed(s: State) {
    && SameLease(s, 1) && s.lease.value.receipt.value.finalization == Some(Finalization(7, Some(4), Pending))
    && IsFinalizer(s, 4, Evicting) && s.processes[4].copy.owner == 1 && s.processes[4].copy.resourcesStopped
    && s.processes[4].copy.finalization == Some(Finalization(7, None, Pending))
  }

  lemma EnteringUnnamed(start: State) returns (s: State)
    requires Reachable(start) && ReadEarly(start)
    ensures Reachable(s) && Unnamed(s)
  {
    s := Then(start, ByFinalizer(4, FinalizerEnters));
  }

  lemma FailingUnnamed(start: State) returns (s: State)
    requires Reachable(start) && Unnamed(start)
    ensures Reachable(s) && Fails(s, 4) && s.processes[4].copy.finalization.value.pid.None?
  {
    s := Then(start, ByFinalizer(4, FinalizerFails));
    s := Then(s, ByFinalizer(4, FinalizerConfirmsFailure));
  }
}
