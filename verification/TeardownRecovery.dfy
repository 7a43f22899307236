// When a later cleanup command can still finish a teardown, and when none ever can.
module TeardownRecovery {
  import opened Text
  import opened Teardown

  /** One cleanup command runs alone through those moves. */
  ghost predicate Path(pid: Pid, states: seq<State>, moves: seq<Move>) {
    && |states| == |moves| + 1
    && forall i :: 0 <= i < |moves| ==>
         Enabled(states[i], ByCleanup(pid, moves[i])) && states[i + 1] == Apply(states[i], ByCleanup(pid, moves[i]))
  }

  ghost predicate Leads(s: State, pid: Pid, t: State) {
    exists states, moves :: Path(pid, states, moves) && states[0] == s && states[|moves|] == t
  }

  lemma Starts(s: State, pid: Pid)
    ensures Leads(s, pid, s)
  {
    var states, moves: seq<Move> := [s], [];
    assert Path(pid, states, moves) && states[0] == s && states[|moves|] == s;
  }

  lemma PathGrows(pid: Pid, states: seq<State>, moves: seq<Move>, move: Move, u: State)
    requires Path(pid, states, moves)
    requires Enabled(states[|moves|], ByCleanup(pid, move)) && u == Apply(states[|moves|], ByCleanup(pid, move))
    ensures Path(pid, states + [u], moves + [move])
  {
    var longer, more := states + [u], moves + [move];
    forall i | 0 <= i < |more|
      ensures Enabled(longer[i], ByCleanup(pid, more[i])) && longer[i + 1] == Apply(longer[i], ByCleanup(pid, more[i]))
    {
      if i < |moves| {
        assert longer[i] == states[i] && longer[i + 1] == states[i + 1] && more[i] == moves[i];
      }
    }
  }

  lemma Then(s: State, pid: Pid, t: State, move: Move) returns (u: State)
    requires Leads(s, pid, t) && Enabled(t, ByCleanup(pid, move))
    ensures u == Apply(t, ByCleanup(pid, move)) && Leads(s, pid, u)
  {
    u := Apply(t, ByCleanup(pid, move));
    var states, moves :| Path(pid, states, moves) && states[0] == s && states[|moves|] == t;
    PathGrows(pid, states, moves, move, u);
    var longer, more := states + [u], moves + [move];
    assert longer[0] == s && longer[|more|] == u;
  }

  /** Nothing has been reported in between. */
  predicate SameReport(s: State, t: State) {
    t.status == s.status && t.everCleaned == s.everCleaned
  }

  /** Nothing of the run is left to wait for. */
  predicate NoProcess(s: State) {
    !PidTaken(s, Controller) && !PidTaken(s, Api) && !PidTaken(s, Worker) && !PidTaken(s, Postgres)
  }

  /** The command has established that no process is left. */
  predicate ProcessesGone(s: State, pid: Pid) {
    && pid in s.recoveries && s.recoveries[pid].at.RemovingStorage? && s.recoveries[pid].flags.processesAbsent
    && (s.storage ==> s.recoveries[pid].found)
  }

  /** The command has established that the storage is gone too, and has files left to remove. */
  predicate StorageGone(s: State, pid: Pid, next: nat) {
    && pid in s.recoveries && s.recoveries[pid].at == RemovingFile(next) && next < |ORDER|
    && s.recoveries[pid].flags.processesAbsent && s.recoveries[pid].flags.storageAbsent
  }

  lemma TakesOver(s: State, pid: Pid) returns (t: State)
    requires Witness in s.files && NoProcess(s) && pid !in s.recoveries && !s.status.Cleaned?
    ensures Leads(s, pid, t) && SameReport(s, t) && NoProcess(t)
    ensures pid in t.recoveries && t.recoveries[pid].at.StoppingApi? && t.recoveries[pid].known
  {
    Starts(s, pid);
    t := Then(s, pid, s, Begins);
    t := Then(s, pid, t, Decides);
    t := Then(s, pid, t, ReadsWitness);
    t := Then(s, pid, t, ChecksController);
  }

  lemma StopsRuntimes(s: State, pid: Pid, at: State) returns (t: State)
    requires Leads(s, pid, at) && NoProcess(at)
    requires pid in at.recoveries && at.recoveries[pid].at.StoppingApi? && at.recoveries[pid].known
    ensures Leads(s, pid, t) && SameReport(at, t) && NoProcess(t)
    ensures pid in t.recoveries && t.recoveries[pid].at.Looking?
  {
    t := Then(s, pid, at, SeesGone);
    t := Then(s, pid, t, SeesGone);
  }

  lemma StopsDatabase(s: State, pid: Pid, at: State) returns (t: State)
    requires Leads(s, pid, at) && NoProcess(at)
    requires pid in at.recoveries && at.recoveries[pid].at.Looking?
    ensures Leads(s, pid, t) && SameReport(at, t) && ProcessesGone(t, pid)
  {
    t := Then(s, pid, at, LooksForStorage);
    t := Then(s, pid, t, SeesGone);
  }

  /** The storage is removed where it was found. */
  lemma RemovesFound(s: State, pid: Pid, at: State) returns (t: State)
    requires Leads(s, pid, at) && ProcessesGone(at, pid)
    ensures Leads(s, pid, t) && SameReport(at, t) && !t.storage
    ensures pid in t.recoveries && MayMove(t, t.recoveries[pid], ConfirmsStorage)
      && t.recoveries[pid].flags.processesAbsent
  {
    if at.recoveries[pid].found {
      t := Then(s, pid, at, RemovesStorage);
    } else {
      t := at;
    }
  }

  lemma ClearsStorage(s: State, pid: Pid, at: State) returns (t: State)
    requires Leads(s, pid, at) && ProcessesGone(at, pid)
    ensures Leads(s, pid, t) && SameReport(at, t) && StorageGone(t, pid, 0)
  {
    t := RemovesFound(s, pid, at);
    t := Then(s, pid, t, ConfirmsStorage);
  }

  /** The command has removed everything, and has only to say so. */
  predicate AllRemoved(s: State, pid: Pid) {
    && pid in s.recoveries && s.recoveries[pid].at.Concluding? && s.recoveries[pid].flags == Flags(true, true, true)
    && Witness !in s.files
  }

  lemma {:induction false} ClearsFiles(s: State, pid: Pid, at: State, next: nat) returns (t: State)
    requires Leads(s, pid, at) && StorageGone(at, pid, next)
    ensures Leads(s, pid, t) && SameReport(at, t) && AllRemoved(t, pid)
    decreases |ORDER| - next
  {
    t := Then(s, pid, at, RemovesFile);
    if next + 1 < |ORDER| {
      t := ClearsFiles(s, pid, t, next + 1);
    }
  }

  /** From where no process is left to where nothing is left, by one command alone. */
  lemma Clears(s: State, pid: Pid) returns (t: State)
    requires Witness in s.files && NoProcess(s) && pid !in s.recoveries && !s.status.Cleaned?
    ensures Leads(s, pid, t) && SameReport(s, t) && AllRemoved(t, pid)
  {
    t := TakesOver(s, pid);
    t := StopsRuntimes(s, pid, t);
    t := StopsDatabase(s, pid, t);
    t := ClearsStorage(s, pid, t);
    t := ClearsFiles(s, pid, t, 0);
  }

  /**
   * Wherever controller and earlier recoveries were cut off, one more cleanup command alone can
   * reach `cleaned`, as long as the witness is there and no process of the run, nor anybody else
   * under its pid, is left.
   */
  lemma WitnessAllowsRecovery(s: State, pid: Pid)
    requires Witness in s.files && NoProcess(s) && pid !in s.recoveries && !s.status.Cleaned?
    ensures exists t :: Leads(s, pid, t) && t.status.Cleaned?
  {
    var t := Clears(s, pid);
    t := Then(s, pid, t, Concludes);
  }

  // ------------------------------------------------------------ without a witness

  /** The recovery has not read the witness, or has given up. */
  predicate Uninformed(r: Recovery) {
    (r.at.Deciding? || r.at.Requesting? || r.at.ReadingWitness? || r.at.Concluding?) && !r.flags.copiesRemoved
  }

  /** The controller is dead, the witness is not there, and nobody who has read it is at work. */
  ghost predicate WithoutWitness(s: State) {
    && Controller !in s.alive && Witness !in s.files && !s.status.Cleaned?
    && forall pid :: pid in s.recoveries ==> Uninformed(s.recoveries[pid])
  }

  lemma MoveWithoutWitness(s: State, r: Recovery, move: Move)
    requires WithoutWitness(s) && Uninformed(r) && MayMove(s, r, move)
    ensures WithoutWitness(Touched(s, r, move)) && s.files <= Touched(s, r, move).files
    ensures Moved(s, r, move).Some? ==> Uninformed(Moved(s, r, move).value)
  {
  }

  lemma PlacedWithoutWitness(s: State, pid: Pid, r: Option<Recovery>)
    requires WithoutWitness(s) && (r.Some? ==> Uninformed(r.value))
    ensures WithoutWitness(Placed(s, pid, r)) && Placed(s, pid, r).files == s.files
  {
  }

  lemma EventWithoutWitness(s: State, event: Event)
    requires WithoutWitness(s) && MayHappen(s, event)
    ensures WithoutWitness(Happened(s, event)) && s.files <= Happened(s, event).files
  {
  }

  lemma LookWithoutWitness(s: State, pid: Pid, look: Look)
    requires WithoutWitness(s)
    ensures WithoutWitness(Viewed(s, pid, look)) && s.files == Viewed(s, pid, look).files
  {
  }

  lemma StepWithoutWitness(s: State, step: Step)
    requires WithoutWitness(s) && Enabled(s, step)
    ensures WithoutWitness(Apply(s, step)) && s.files <= Apply(s, step).files
  {
    match step {
      case ByController(_) =>
      case ByCleanup(pid, move) =>
        if pid in s.recoveries {
          MoveWithoutWitness(s, s.recoveries[pid], move);
          PlacedWithoutWitness(Touched(s, s.recoveries[pid], move), pid, Moved(s, s.recoveries[pid], move));
        } else {
          PlacedWithoutWitness(s, pid, Begun(s));
        }
      case ByViewer(pid, look) => LookWithoutWitness(s, pid, look);
      case ByWorld(event) => EventWithoutWitness(s, event);
    }
  }

  /**
   * Once the controller is dead and the witness is missing, no cleanup command ever reports
   * `cleaned` or removes a file: neither where the last removal was done but not reported, nor
   * where the controller died before it recorded the witness.
   */
  lemma {:induction false} WithoutWitnessForGood(states: seq<State>, steps: seq<Step>, i: nat, j: nat)
    requires Run(states, steps) && i <= j < |states| && WithoutWitness(states[i])
    ensures WithoutWitness(states[j]) && states[i].files <= states[j].files
    decreases j
  {
    if i < j {
      WithoutWitnessForGood(states, steps, i, j - 1);
      StepWithoutWitness(states[j - 1], steps[j - 1]);
    }
  }

  /** A controller that dies early leaves its key for good: such a run exists. */
  lemma EarlyDeathKeepsKey()
    ensures exists states: seq<State>, steps: seq<Step> ::
      Run(states, steps) && WithoutWitness(states[|steps|]) && Key in states[|steps|].files
  {
    var steps := [ByController(WritesNext), ByWorld(ProcessDies(Controller))];
    var written := Apply(INITIAL, steps[0]);
    var states := [INITIAL, written, Apply(written, steps[1])];
    assert Run(states, steps);
    assert WithoutWitness(states[|steps|]) && Key in states[|steps|].files;
  }
}
