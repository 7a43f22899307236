// What a recovery has seen before it acts and before it reports: nobody under the pid of the controller
// before it stops anything, and nobody under the pid of each process it calls gone.
module TeardownChecks {
  import opened Teardown
  import opened TeardownReports

  /** No process of this run or of anybody else has the pid recorded for the role. */
  predicate Nobody(s: State, role: Role) {
    role !in s.alive && role !in s.reused
  }

  /** The recovery is stopping that process. */
  predicate At(s: State, pid: Pid, role: Role) {
    && pid in s.recoveries
    && match role
       case Controller => s.recoveries[pid].at == CheckingController
       case Api => s.recoveries[pid].at == StoppingApi
       case Worker => s.recoveries[pid].at == StoppingWorker
       case Postgres => s.recoveries[pid].at == StoppingPostgres
  }

  /** Before `j` the recovery came to the process and found nobody under its pid. */
  ghost predicate FoundGone(states: seq<State>, steps: seq<Step>, j: nat, pid: Pid, role: Role) {
    exists i :: 0 <= i < j && i < |steps| && i < |states| && MovesIn(steps[i], pid)
             && At(states[i], pid, role) && Nobody(states[i], role)
  }

  /** Before `j` the recovery looked and found the storage. */
  ghost predicate FoundStorage(states: seq<State>, steps: seq<Step>, j: nat, pid: Pid) {
    exists i :: 0 <= i < j && i < |steps| && i < |states| && steps[i] == ByCleanup(pid, LooksForStorage)
             && states[i].storage
  }

  /** The recovery has its look at the controller behind it. */
  predicate PastController(at: RecoveryAt) {
    at.StoppingApi? || at.StoppingWorker? || at.Looking? || at.StoppingPostgres? || at.RemovingStorage?
    || at.ConfirmingStorage? || at.RemovingFile?
  }

  predicate PastChildren(at: RecoveryAt) {
    at.Looking? || at.StoppingPostgres? || at.RemovingStorage? || at.ConfirmingStorage? || at.RemovingFile?
  }

  /** What the recovery must have seen to stand where it stands. */
  ghost predicate HasSeen(states: seq<State>, steps: seq<Step>, j: nat, pid: Pid, r: Recovery) {
    && (PastController(r.at) || r.flags.processesAbsent ==> FoundGone(states, steps, j, pid, Controller))
    && ((r.at.StoppingWorker? && r.known) || PastChildren(r.at) || r.flags.processesAbsent ==>
          FoundGone(states, steps, j, pid, Api))
    && (PastChildren(r.at) || r.flags.processesAbsent ==> FoundGone(states, steps, j, pid, Worker))
    && (r.flags.processesAbsent ==> FoundGone(states, steps, j, pid, Postgres))
    && (r.found ==> FoundStorage(states, steps, j, pid))
  }

  /** What was seen by then was seen by now. */
  lemma SeenStill(states: seq<State>, steps: seq<Step>, j: nat, pid: Pid, r: Recovery)
    requires HasSeen(states, steps, j, pid, r)
    ensures HasSeen(states, steps, j + 1, pid, r)
  {
    forall role | FoundGone(states, steps, j, pid, role)
      ensures FoundGone(states, steps, j + 1, pid, role)
    {
    }
  }

  /** What the command's own move shows it. */
  predicate Shows(s: State, r: Recovery, move: Move, next: Recovery) {
    && (next.flags.processesAbsent ==> r.flags.processesAbsent || (r.at.StoppingPostgres? && Nobody(s, Postgres)))
    && (next.found ==> r.found || (move.LooksForStorage? && s.storage))
    && (PastController(next.at) ==> PastController(r.at) || (r.at.CheckingController? && Nobody(s, Controller)))
    && (next.at.StoppingWorker? && next.known ==> r.at.StoppingApi? && Nobody(s, Api))
    && (PastChildren(next.at) ==> PastChildren(r.at) || (r.at.StoppingWorker? && r.known && Nobody(s, Worker)))
  }

  lemma MoveShows(s: State, r: Recovery, move: Move)
    requires MayMove(s, r, move) && !move.Signals? && Moved(s, r, move).Some?
    ensures Shows(s, r, move, Moved(s, r, move).value)
  {
  }

  lemma FoundNow(states: seq<State>, steps: seq<Step>, j: nat, pid: Pid, role: Role)
    requires j < |steps| && j < |states| && MovesIn(steps[j], pid)
    requires At(states[j], pid, role) && Nobody(states[j], role)
    ensures FoundGone(states, steps, j + 1, pid, role)
  {
  }

  lemma ShownIsSeen(states: seq<State>, steps: seq<Step>, j: nat, pid: Pid, r: Recovery, next: Recovery)
    requires j < |steps| && j < |states| && MovesIn(steps[j], pid)
    requires pid in states[j].recoveries && states[j].recoveries[pid] == r
    requires HasSeen(states, steps, j, pid, r) && Shows(states[j], r, steps[j].move, next)
    ensures HasSeen(states, steps, j + 1, pid, next)
  {
    SeenStill(states, steps, j, pid, r);
    forall role | At(states[j], pid, role) && Nobody(states[j], role)
      ensures FoundGone(states, steps, j + 1, pid, role)
    {
      FoundNow(states, steps, j, pid, role);
    }
  }

  lemma NothingSeenYet(states: seq<State>, steps: seq<Step>, j: nat, pid: Pid)
    ensures HasSeen(states, steps, j, pid, Recovery(Deciding, true, false, NONE))
  {
  }

  lemma OwnMoveIsSeen(states: seq<State>, steps: seq<Step>, j: nat, pid: Pid)
    requires Run(states, steps) && j < |steps| && MovesIn(steps[j], pid) && pid in states[j + 1].recoveries
    requires pid in states[j].recoveries ==> HasSeen(states, steps, j, pid, states[j].recoveries[pid])
    ensures HasSeen(states, steps, j + 1, pid, states[j + 1].recoveries[pid])
  {
    var s, move := states[j], steps[j].move;
    if pid in s.recoveries {
      var r := s.recoveries[pid];
      if move.Signals? {
        SeenStill(states, steps, j, pid, r);
      } else {
        MoveShows(s, r, move);
        ShownIsSeen(states, steps, j, pid, r, Moved(s, r, move).value);
      }
    } else {
      NothingSeenYet(states, steps, j + 1, pid);
    }
  }

  lemma {:induction false} SeenInRun(states: seq<State>, steps: seq<Step>, j: nat, pid: Pid)
    requires Run(states, steps) && j < |states| && pid in states[j].recoveries
    ensures HasSeen(states, steps, j, pid, states[j].recoveries[pid])
    decreases j
  {
    if j > 0 {
      if pid in states[j - 1].recoveries {
        SeenInRun(states, steps, j - 1, pid);
      }
      if MovesIn(steps[j - 1], pid) {
        OwnMoveIsSeen(states, steps, j - 1, pid);
      } else {
        OthersStandInRun(states, steps, j - 1, pid);
        SeenStill(states, steps, j - 1, pid, states[j].recoveries[pid]);
      }
    }
  }

  /**
   * A recovery that reports that the processes are gone found, for the controller, the api, the worker and
   * the database one after the other, nobody under the pid: neither its process nor another's.
   */
  lemma AbsentWasSeen(states: seq<State>, steps: seq<Step>, j: nat, pid: Pid, role: Role)
    requires Run(states, steps) && j < |steps| && steps[j] == ByCleanup(pid, Concludes)
    requires pid in states[j].recoveries && states[j].recoveries[pid].flags.processesAbsent
    ensures exists i :: 0 <= i < j && MovesIn(steps[i], pid) && At(states[i], pid, role)
                     && role !in states[i].alive && role !in states[i].reused
  {
    SeenInRun(states, steps, j, pid);
    var i :| 0 <= i < j && i < |steps| && i < |states| && MovesIn(steps[i], pid)
             && At(states[i], pid, role) && Nobody(states[i], role);
  }

  /**
   * A recovery signals only a process of the run that is alive, and removes storage only where it found it,
   * in both cases after it found nobody under the controller's pid.
   */
  lemma InterventionWasChecked(states: seq<State>, steps: seq<Step>, j: nat, pid: Pid)
    requires Run(states, steps) && j < |steps|
    requires steps[j] == ByCleanup(pid, Signals) || steps[j] == ByCleanup(pid, RemovesStorage)
    ensures pid in states[j].recoveries && FoundGone(states, steps, j, pid, Controller)
    ensures steps[j].move.Signals? ==>
      exists role :: role in states[j].alive && role != Controller && At(states[j], pid, role)
    ensures steps[j].move.RemovesStorage? ==> FoundStorage(states, steps, j, pid)
  {
    SeenInRun(states, steps, j, pid);
    if steps[j].move.Signals? {
      var role := Stopping(states[j].recoveries[pid].at).value;
      assert role in states[j].alive && At(states[j], pid, role);
    }
  }

  /** A controller is finished only once it has reported. */
  lemma FinishedHasReported(states: seq<State>, steps: seq<Step>, i: nat)
    requires Run(states, steps) && i < |steps|
    requires states[i].controller != Finished && states[i + 1].controller == Finished
    ensures steps[i] == ByController(Reports) && (states[i + 1].status.Cleaned? || states[i + 1].status.CleanupUnknown?)
  {
    StepFinishes(states[i], steps[i]);
  }

  lemma StepFinishes(s: State, step: Step)
    requires Enabled(s, step) && s.controller != Finished && Apply(s, step).controller == Finished
    ensures step == ByController(Reports)
  {
    match step {
      case ByController(act) => ActFinishes(s, act);
      case ByCleanup(pid, move) =>
        if pid in s.recoveries {
          TouchLeavesController(s, s.recoveries[pid], move);
        }
      case ByViewer(pid, look) => LookLeavesController(s, pid, look);
      case ByWorld(event) => EventLeavesController(s, event);
    }
  }

  lemma LookLeavesController(s: State, pid: Pid, look: Look)
    ensures Viewed(s, pid, look).controller == s.controller
  {
  }

  lemma EventLeavesController(s: State, event: Event)
    ensures Happened(s, event).controller == s.controller
  {
  }

  lemma TouchLeavesController(s: State, r: Recovery, move: Move)
    requires MayMove(s, r, move)
    ensures Touched(s, r, move).controller == s.controller
  {
  }

  lemma ActFinishes(s: State, act: Act)
    requires MayAct(s, act) && s.controller != Finished && Acted(s, act).controller == Finished
    ensures act == Reports
  {
  }
}
