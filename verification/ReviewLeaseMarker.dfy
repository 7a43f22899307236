// A stop marker can outlive the review window it was meant for.
module ReviewLeaseMarker {
  import opened Text
  import opened ReviewLease
  import opened ReviewLeaseSafety

  ghost predicate Reachable(s: State) {
    exists states, steps :: Run(states, steps) && states[|steps|] == s
  }

  lemma Begin() returns (s: State)
    ensures Reachable(s) && s == INITIAL
  {
    s := INITIAL;
    var states, steps: seq<Step> := [INITIAL], [];
    assert Run(states, steps) && states[|steps|] == s;
  }

  lemma Then(s: State, step: Step) returns (t: State)
    requires Reachable(s) && Enabled(s, step)
    ensures Reachable(t) && t == Apply(s, step)
  {
    t := Apply(s, step);
    var states, steps :| Run(states, steps) && states[|steps|] == s;
    assert Run(states + [t], steps + [step]) && (states + [t])[|steps + [step]|] == t;
  }

  const FIRST := Receipt(1, Starting, false, None)

  /** Nothing has been made yet by any later start. */
  predicate OnlyFirst(s: State) {
    s.owners == {1} && s.pids <= {1, 2, 3, 4} && s.issued.Keys <= {7}
  }

  /** Window 1 is up: its supervisor is process 2, and nobody asked for anything. */
  predicate Opened(s: State) {
    && OnlyFirst(s) && s.pids == {1, 2} && s.issued == map[] && s.loaded == {1}
    && s.lease.Some? && s.lease.value.owner == 1 && s.lease.value.receipt == Some(FIRST)
    && s.lease.value.plist && s.lease.value.locks == {} && s.lease.value.markers == {}
    && s.processes == map[2 := Supervisor(1, Reading, FIRST)]
  }

  /** Process 3 is about to write the stop marker of window 1; the supervisor serves. */
  predicate Asked(s: State) {
    && OnlyFirst(s) && s.pids == {1, 2, 3} && s.issued == map[] && s.loaded == {1}
    && s.lease.Some? && s.lease.value.owner == 1 && s.lease.value.receipt == Some(FIRST)
    && s.lease.value.plist && s.lease.value.locks == {} && s.lease.value.markers == {}
    && s.processes == map[2 := Supervisor(1, Reading, FIRST), 3 := Stopper(FIRST, MarkWriting)]
  }

  /** The supervisor has ended cleanly and is about to hand over. */
  predicate Closed(s: State) {
    && OnlyFirst(s) && s.pids == {1, 2, 3} && s.issued == map[]
    && SameLease(s, 1) && s.lease.value.plist && s.lease.value.locks == {}
    && 2 in s.processes && s.processes[2] == Handoff(FIRST, true, HandoffAt.Locking)
    && 3 in s.processes && s.processes[3] == Stopper(FIRST, MarkWriting)
  }

  /** The supervisor holds the finalization lock. */
  predicate Held(s: State) {
    && OnlyFirst(s) && s.pids == {1, 2, 3} && s.issued == map[]
    && SameLease(s, 1) && s.lease.value.plist
    && 2 in s.processes && s.processes[2] == Handoff(FIRST, true, Persisting)
    && 3 in s.processes && s.processes[3] == Stopper(FIRST, MarkWriting)
  }

  /** The supervisor has handed over to process 4. */
  predicate Ended(s: State) {
    && OnlyFirst(s)
    && SameLease(s, 1) && s.lease.value.plist
    && s.lease.value.receipt.value.resourcesStopped
    && s.lease.value.receipt.value.finalization == Some(Finalization(7, Some(4), Pending))
    && 4 in s.processes && s.processes[4].Finalizer? && s.processes[4].owner == 1
    && s.processes[4].token == 7 && s.processes[4].finalizer == Waiting
    && 3 in s.processes && s.processes[3] == Stopper(FIRST, MarkWriting)
  }

  /** Process 4 has had the service removed, and has the lease still to remove. */
  predicate Evicted(s: State) {
    && OnlyFirst(s) && SameLease(s, 1) && 1 !in s.loaded
    && s.lease.value.receipt.value.finalization == Some(Finalization(7, Some(4), Pending))
    && 4 in s.processes && s.processes[4] == Finalizer(1, 7, FinalizerAt.Evicting, s.lease.value.receipt.value)
    && s.lease.value.receipt.value.resourcesStopped
    && 3 in s.processes && s.processes[3] == Stopper(FIRST, MarkWriting)
  }

  lemma Opening() returns (s: State)
    ensures Reachable(s) && Opened(s)
  {
    s := Begin();
    s := Then(s, ByStarter(1, StartMkdir(1)));
    s := Then(s, ByStarter(1, StartPersist));
    s := Then(s, ByStarter(1, StartArm));
    s := Then(s, ByStarter(1, StartBootstrap));
    s := Then(s, ServiceLoads(2, 1));
  }

  lemma Asking(start: State) returns (s: State)
    requires Reachable(start) && Opened(start)
    ensures Reachable(s) && Asked(s)
  {
    s := Then(start, ByStopper(3, StopReads));
    s := Then(s, ByStopper(3, StopInspects));
    s := Then(s, ByStopper(3, StopAsserts));
  }

  lemma Closing(start: State) returns (s: State)
    requires Reachable(start) && Asked(start)
    ensures Reachable(s) && Closed(s)
  {
    s := Then(start, BySupervisor(2, SupervisorReads));
    s := Then(s, BySupervisor(2, SupervisorChecks));
    s := Then(s, BySupervisor(2, SupervisorEnds(true)));
    s := Then(s, ByHandoff(2, HandoffAsserts));
  }

  lemma Locking(start: State) returns (s: State)
    requires Reachable(start) && Closed(start)
    ensures Reachable(s) && Held(s)
  {
    s := Then(start, ByHandoff(2, HandoffLocks));
    s := Then(s, ByHandoff(2, HandoffReasserts(true)));
  }

  lemma Ending(start: State) returns (s: State)
    requires Reachable(start) && Held(start)
    ensures Reachable(s) && Ended(s)
  {
    s := Then(start, ByHandoff(2, HandoffPersists(7)));
    s := Then(s, ByHandoff(2, HandoffSpawns(4)));
    s := Then(s, ByHandoff(2, HandoffAdmits));
  }

  lemma Evicting(start: State) returns (s: State)
    requires Reachable(start) && Ended(start)
    ensures Reachable(s) && Evicted(s)
  {
    s := Then(start, ByFinalizer(4, FinalizerReads));
    s := Then(s, ByFinalizer(4, FinalizerEnters));
    s := Then(s, ByFinalizer(4, FinalizerEvicts));
  }

  lemma Removing(start: State) returns (s: State)
    requires Reachable(start) && Evicted(start)
    ensures Reachable(s) && OnlyFirst(s) && s.lease.None? && 3 in s.processes
      && s.processes[3] == Stopper(FIRST, MarkWriting)
  {
    s := Then(start, ByFinalizer(4, FinalizerSees));
    s := Then(s, ByFinalizer(4, FinalizerConfirms));
    s := Then(s, ByFinalizer(4, FinalizerRemoves));
  }

  /** Process 3, which works for window 1, may write its marker, and then the lease holds it. */
  predicate LeavesMarker(s: State) {
    && Enabled(s, ByStopper(3, StopMarks)) && WorksFor(s.processes[3]) == 1
    && var t := Apply(s, ByStopper(3, StopMarks));
       t.lease.Some? && t.lease.value.owner == s.lease.value.owner
       && 1 in t.lease.value.markers && 1 !in s.lease.value.markers
  }

  /**
   * A stop command that was about to write its marker when its lease went away leaves the marker
   * in the next one: process 3 asked window 1 to stop, and writes into the directory of window 2.
   */
  lemma StaleMarkerCanRemain()
    ensures exists s :: Reachable(s) && Current(s, 2) && LeavesMarker(s)
  {
    var s := Opening();
    s := Asking(s);
    s := Closing(s);
    s := Locking(s);
    s := Ending(s);
    s := Evicting(s);
    s := Removing(s);
    s := Then(s, ByStarter(5, StartMkdir(2)));
    var t := Then(s, ByStopper(3, StopMarks));
  }
}
