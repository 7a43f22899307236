// What a cleanup command does where the controller answers, and what the reported states tell.
module TeardownReports {
  import opened Teardown

  predicate MovesIn(step: Step, pid: Pid) {
    step.ByCleanup? && step.pid == pid
  }

  /** The controller can be asked: its witness is there, it lives, and it is not suspended. */
  predicate Answers(s: State) {
    Witness in s.files && Controller in s.alive && !s.paused
  }

  /** The command stands where it stood. */
  predicate SameCommand(s: State, t: State, pid: Pid) {
    && (pid in s.recoveries <==> pid in t.recoveries)
    && (pid in s.recoveries ==> t.recoveries[pid] == s.recoveries[pid])
  }

  lemma OthersStand(s: State, step: Step, pid: Pid)
    requires Inv(s) && Enabled(s, step) && !MovesIn(step, pid)
    ensures SameCommand(s, Apply(s, step), pid)
  {
    match step {
      case ByController(act) => ActKeeps(s, act);
      case ByCleanup(other, move) =>
        if other in s.recoveries {
          TouchKeeps(s, s.recoveries[other], move);
        }
      case ByViewer(viewer, look) => LookKeeps(s, viewer, look);
      case ByWorld(event) => EventKeeps(s, event);
    }
  }

  lemma OthersStandInRun(states: seq<State>, steps: seq<Step>, k: nat, pid: Pid)
    requires Run(states, steps) && k < |steps| && !MovesIn(steps[k], pid)
    ensures SameCommand(states[k], states[k + 1], pid)
  {
    RunKeeps(states, steps, k);
    OthersStand(states[k], steps[k], pid);
  }

  lemma {:induction false} SameThroughout(states: seq<State>, first: nat, last: nat, pid: Pid)
    requires first <= last < |states| && forall k :: first <= k < last ==> SameCommand(states[k], states[k + 1], pid)
    ensures SameCommand(states[first], states[last], pid)
    decreases last
  {
    if last > first {
      SameThroughout(states, first, last - 1, pid);
    }
  }

  lemma Undisturbed(states: seq<State>, steps: seq<Step>, first: nat, last: nat, pid: Pid)
    requires Run(states, steps) && first <= last < |states|
    requires forall k :: first <= k < last ==> !MovesIn(steps[k], pid)
    ensures SameCommand(states[first], states[last], pid)
  {
    forall k | first <= k < last
      ensures SameCommand(states[k], states[k + 1], pid)
    {
      OthersStandInRun(states, steps, k, pid);
    }
    SameThroughout(states, first, last, pid);
  }

  /** The one thing a command that found the controller answering still does. */
  predicate LeavesRequest(s: State, t: State, pid: Pid) {
    t == s.(files := s.files + {CleanupRequest}, recoveries := s.recoveries - {pid})
  }

  /**
   * A cleanup command that decides while the controller answers takes one more step, whatever happens in
   * between: it leaves its request and is gone, or it dies. It never signals, removes or reports anything.
   */
  lemma AnsweredCommandOnlyAsks(states: seq<State>, steps: seq<Step>, i: nat, j: nat, pid: Pid)
    requires Run(states, steps) && i < j < |steps| && Answers(states[i])
    requires pid in states[i].recoveries && steps[i] == ByCleanup(pid, Decides)
    requires MovesIn(steps[j], pid) && forall k :: i < k < j ==> !MovesIn(steps[k], pid)
    ensures states[i + 1] == states[i].(recoveries := states[i + 1].recoveries)
    ensures || LeavesRequest(states[j], states[j + 1], pid)
            || states[j + 1] == states[j].(recoveries := states[j].recoveries - {pid})
    ensures Enabled(states[j], ByCleanup(pid, Requests))
         && LeavesRequest(states[j], Apply(states[j], ByCleanup(pid, Requests)), pid)
  {
    assert states[i + 1].recoveries[pid].at == Requesting;
    Undisturbed(states, steps, i + 1, j, pid);
    assert steps[j].move.Requests? || steps[j].move.Dies?;
  }

  /**
   * One that decides where the controller does not answer never leaves a request: it goes on to read the
   * witness and recovers the directory itself.
   */
  lemma {:induction false} UnansweredCommandNeverAsks(states: seq<State>, steps: seq<Step>, i: nat, j: nat, pid: Pid)
    requires Run(states, steps) && i < j < |states| && !Answers(states[i])
    requires pid in states[i].recoveries && steps[i] == ByCleanup(pid, Decides)
    requires forall k :: i < k <= j ==> pid in states[k].recoveries
    ensures !states[j].recoveries[pid].at.Deciding? && !Enabled(states[j], ByCleanup(pid, Requests))
    decreases j
  {
    if j == i + 1 {
      assert states[j].recoveries[pid].at == ReadingWitness;
    } else {
      UnansweredCommandNeverAsks(states, steps, i, j - 1, pid);
      if MovesIn(steps[j - 1], pid) {
        MoveNeverAsks(states[j - 1], states[j - 1].recoveries[pid], steps[j - 1].move);
      } else {
        OthersStandInRun(states, steps, j - 1, pid);
      }
    }
  }

  lemma MoveNeverAsks(s: State, r: Recovery, move: Move)
    requires MayMove(s, r, move) && !r.at.Deciding? && !r.at.Requesting?
    ensures Moved(s, r, move).Some? ==>
      !Moved(s, r, move).value.at.Deciding? && !Moved(s, r, move).value.at.Requesting?
  {
  }

  // --------------------------------------------------------------- what reports tell

  /**
   * `running` is reported by the step that records the witness, `runtime_failed` only by a serving
   * controller that has lost its api or its worker, and `runtime_unknown` only by a status command.
   */
  lemma ReportsTell(states: seq<State>, steps: seq<Step>, i: nat)
    requires Run(states, steps) && i < |steps| && states[i + 1].status != states[i].status
    ensures Tells(states[i], steps[i], states[i + 1])
  {
    StepTells(states[i], steps[i]);
  }

  ghost predicate Tells(s: State, step: Step, t: State) {
    && (t.status.Running? ==> Witness in t.files && t.controller.Serving?)
    && (t.status.RuntimeFailed? ==> s.controller.Serving? && (Api !in s.alive || Worker !in s.alive))
    && (t.status.RuntimeUnknown? ==> step.ByViewer? && step.look.Publishes?)
    && !t.status.Preparing?
  }

  /**
   * What each step that reports puts there: recording the witness `running`, a serving controller that ends
   * without its api or worker `runtime_failed`, a status command's refusal `runtime_unknown`.
   */
  lemma StepsReport(states: seq<State>, steps: seq<Step>, i: nat)
    requires Run(states, steps) && i < |steps|
    ensures steps[i] == ByController(Records) ==> states[i + 1].status == Running && Witness in states[i + 1].files
    ensures steps[i] == ByController(EndsServing(true)) ==> states[i + 1].status == RuntimeFailed
    ensures steps[i].ByViewer? && steps[i].look.Publishes? ==> states[i + 1].status == RuntimeUnknown
  {
  }

  lemma StepTells(s: State, step: Step)
    requires Enabled(s, step) && Apply(s, step).status != s.status
    ensures Tells(s, step, Apply(s, step))
  {
    match step {
      case ByController(act) => ActTells(s, act);
      case ByCleanup(pid, move) =>
        if pid in s.recoveries {
          TouchReports(s, s.recoveries[pid], move);
        }
      case ByViewer(_, _) =>
      case ByWorld(event) => EventReports(s, event);
    }
  }

  lemma ActTells(s: State, act: Act)
    requires MayAct(s, act) && Acted(s, act).status != s.status
    ensures Tells(s, ByController(act), Acted(s, act))
  {
    OtherActsAreSilent(s, act);
  }

  lemma OtherActsAreSilent(s: State, act: Act)
    requires MayAct(s, act)
    ensures !act.Records? && !act.EndsServing? && !act.Reports? ==> Acted(s, act).status == s.status
  {
  }

  /** The controller's key, its children's launch files and artifacts, its receipt, journal and witness. */
  const PRIVATE: set<File> := {Key, ApiLaunch, WorkerLaunch, ApiArtifact, WorkerArtifact, RuntimeReceipt, Journal,
                               Witness}

  /** Once `cleaned` is reported, none of them is there, nor any api, worker or storage. */
  lemma CleanedLeavesNothing(states: seq<State>, steps: seq<Step>, i: nat)
    requires Run(states, steps) && i < |states| && states[i].status.Cleaned?
    ensures states[i].files !! PRIVATE
    ensures Api !in states[i].alive && Worker !in states[i].alive && !states[i].storage
  {
    RunKeeps(states, steps, i);
    forall f | f in PRIVATE
      ensures f !in states[i].files
    {
      InOrder(f);
    }
  }

  /** Once recorded, the witness is there for as long as any other of them is. */
  lemma WitnessStaysToTheEnd(states: seq<State>, steps: seq<Step>, i: nat)
    requires Run(states, steps) && i < |states| && states[i].recorded && Witness !in states[i].files
    ensures states[i].files !! PRIVATE
  {
    forall f | f in PRIVATE
      ensures f !in states[i].files
    {
      if f in states[i].files {
        WitnessOutlivesSecrets(states, steps, i, f);
      }
    }
  }

  // ------------------------------------------------------------ the controller's storage

  /** The controller says that the storage is gone only of a cluster it knows. */
  predicate ClusterKnown(s: State) {
    s.controller.CheckingStorage? || s.flags.storageAbsent ==> s.cluster
  }

  lemma StepKeepsCluster(s: State, step: Step)
    requires Inv(s) && ClusterKnown(s) && Enabled(s, step)
    ensures ClusterKnown(Apply(s, step))
  {
    match step {
      case ByController(act) => ActKeepsCluster(s, act);
      case ByCleanup(pid, move) =>
        if pid in s.recoveries {
          TouchKeepsCluster(s, s.recoveries[pid], move);
        }
      case ByViewer(pid, look) => LookKeepsCluster(s, pid, look);
      case ByWorld(event) => EventKeepsCluster(s, event);
    }
  }

  lemma TouchKeepsCluster(s: State, r: Recovery, move: Move)
    requires ClusterKnown(s) && MayMove(s, r, move)
    ensures ClusterKnown(Touched(s, r, move))
  {
  }

  lemma LookKeepsCluster(s: State, pid: Pid, look: Look)
    requires ClusterKnown(s)
    ensures ClusterKnown(Viewed(s, pid, look))
  {
  }

  lemma EventKeepsCluster(s: State, event: Event)
    requires ClusterKnown(s)
    ensures ClusterKnown(Happened(s, event))
  {
  }

  lemma ActKeepsCluster(s: State, act: Act)
    requires Inv(s) && ClusterKnown(s) && MayAct(s, act)
    ensures ClusterKnown(Acted(s, act))
  {
  }

  lemma {:induction false} RunKeepsCluster(states: seq<State>, steps: seq<Step>, i: nat)
    requires Run(states, steps) && i < |states|
    ensures ClusterKnown(states[i])
  {
    if i > 0 {
      RunKeepsCluster(states, steps, i - 1);
      RunKeeps(states, steps, i - 1);
      StepKeepsCluster(states[i - 1], steps[i - 1]);
    }
  }

  /** A controller that never learned of the cluster it started never reports `cleaned`. */
  lemma UnknownClusterIsNotCleaned(states: seq<State>, steps: seq<Step>, i: nat)
    requires Run(states, steps) && i < |steps| && steps[i] == ByController(Reports) && !states[i].cluster
    ensures states[i + 1].status == CleanupUnknown
  {
    RunKeepsCluster(states, steps, i);
  }
}
