// What cleanup and status commands can do to the report of a teardown: when `cleaned` stands, when it
// is lost, and runs in which it is never reported or does not last.
module TeardownRaces {
  import opened Text
  import opened Teardown
  import opened TeardownRecovery

  // --------------------------------------------------------- when `cleaned` stands

  /** Everything that can still happen from `s` on. */
  ghost predicate Continues(s: State, states: seq<State>, steps: seq<Step>) {
    && |states| == |steps| + 1
    && states[0] == s
    && forall i :: 0 <= i < |steps| ==> Enabled(states[i], steps[i]) && states[i + 1] == Apply(states[i], steps[i])
  }

  /** The command may still end by reporting something else than `cleaned`. */
  predicate CanOverwrite(r: Recovery) {
    !r.at.Requesting? && !(r.at.Concluding? && Report(r.flags).Cleaned?)
  }

  /** `cleaned` is reported, no status command is at work, and no cleanup command can take it back. */
  ghost predicate Settled(s: State) {
    && s.status.Cleaned? && s.viewers == map[]
    && forall pid :: pid in s.recoveries ==> !CanOverwrite(s.recoveries[pid])
  }

  /**
   * Once `cleaned` is reported, it is taken back exactly by a cleanup command that concludes without
   * its three flags, or by a status command that publishes what it found while the run still was
   * reported as running.
   */
  lemma CleanedIsLostExactly(s: State, step: Step)
    requires Inv(s) && Enabled(s, step) && s.status.Cleaned?
    ensures !Apply(s, step).status.Cleaned?
       <==> (step.ByCleanup? && step.pid in s.recoveries && step.move.Concludes?
             && !Report(s.recoveries[step.pid].flags).Cleaned?)
            || (step.ByViewer? && step.look.Publishes?)
  {
    match step {
      case ByController(act) => FinishedActs(s, act);
      case ByCleanup(pid, move) =>
        if pid in s.recoveries {
          TouchReports(s, s.recoveries[pid], move);
        }
      case ByViewer(_, _) =>
      case ByWorld(event) => EventReports(s, event);
    }
  }

  lemma FinishedActs(s: State, act: Act)
    requires s.controller.Finished?
    ensures !MayAct(s, act)
  {
  }

  lemma SettledMove(s: State, r: Recovery, move: Move)
    requires s.status.Cleaned? && !CanOverwrite(r) && MayMove(s, r, move)
    ensures Touched(s, r, move).status.Cleaned? && Touched(s, r, move).recoveries == s.recoveries
      && Touched(s, r, move).viewers == s.viewers
    ensures Moved(s, r, move).Some? ==> !CanOverwrite(Moved(s, r, move).value)
  {
  }

  lemma SettledPlaced(s: State, pid: Pid, r: Option<Recovery>)
    requires Settled(s) && (r.Some? ==> !CanOverwrite(r.value))
    ensures Settled(Placed(s, pid, r))
  {
  }

  lemma SettledStays(s: State, step: Step)
    requires Inv(s) && Enabled(s, step) && Settled(s)
    ensures Settled(Apply(s, step))
  {
    match step {
      case ByController(act) => FinishedActs(s, act);
      case ByCleanup(pid, move) =>
        if pid in s.recoveries {
          SettledMove(s, s.recoveries[pid], move);
          SettledPlaced(Touched(s, s.recoveries[pid], move), pid, Moved(s, s.recoveries[pid], move));
        } else {
          SettledPlaced(s, pid, Begun(s));
        }
      case ByViewer(_, _) =>
      case ByWorld(event) => EventReports(s, event);
    }
  }

  /** The command ends, reporting what its flags say. */
  lemma Concluded(s: State, pid: Pid, at: State) returns (t: State)
    requires Leads(s, pid, at) && pid in at.recoveries && at.recoveries[pid].at.Concluding?
    ensures Leads(s, pid, t) && t.status == Report(at.recoveries[pid].flags) && pid !in t.recoveries
  {
    t := Then(s, pid, at, Concludes);
  }

  /** A command that is not done with the directory can give up, and says so. */
  lemma GivesUp(s: State, pid: Pid, at: State) returns (t: State)
    requires Leads(s, pid, at) && pid in at.recoveries && !at.recoveries[pid].at.Deciding?
    requires CanOverwrite(at.recoveries[pid]) && !at.recoveries[pid].flags.copiesRemoved
    ensures Leads(s, pid, t) && t.status.CleanupUnknown?
  {
    t := at;
    if !t.recoveries[pid].at.Concluding? {
      t := Then(s, pid, t, Abandons);
    }
    t := Concluded(s, pid, t);
  }

  /** A command that can overwrite `cleaned` can do so all by itself. */
  lemma OverwriterOverwrites(s: State, pid: Pid)
    requires Inv(s) && s.status.Cleaned? && pid in s.recoveries && CanOverwrite(s.recoveries[pid])
    ensures exists t :: Leads(s, pid, t) && !t.status.Cleaned?
  {
    Starts(s, pid);
    var t := s;
    if t.recoveries[pid].at.Deciding? {
      InOrder(Witness);
      t := Then(s, pid, t, Decides);
    }
    t := GivesUp(s, pid, t);
  }

  /** What a cleanup command does alone is one way to go on. */
  lemma PathContinues(pid: Pid, states: seq<State>, moves: seq<Move>)
    requires Path(pid, states, moves)
    ensures exists steps :: Continues(states[0], states, steps)
  {
    var steps := seq(|moves|, i requires 0 <= i < |moves| => ByCleanup(pid, moves[i]));
    assert Continues(states[0], states, steps);
  }

  /** Some way to go on loses the report. */
  ghost predicate CanBeLost(s: State) {
    exists states: seq<State>, steps :: Continues(s, states, steps) && !states[|steps|].status.Cleaned?
  }

  lemma LeadsLoses(s: State, pid: Pid, t: State)
    requires Leads(s, pid, t) && !t.status.Cleaned?
    ensures CanBeLost(s)
  {
    var states, moves :| Path(pid, states, moves) && states[0] == s && states[|moves|] == t;
    PathContinues(pid, states, moves);
    var steps :| Continues(states[0], states, steps);
    assert states[|steps|] == t;
  }

  /** A status command at work can take the report back: what it looks for is gone by then. */
  lemma ViewerLoses(s: State, pid: Pid)
    requires pid in s.viewers
    ensures CanBeLost(s)
  {
    if s.viewers[pid].Checking? {
      var found := Apply(s, ByViewer(pid, FindsFault));
      var states, steps := [s, found, Apply(found, ByViewer(pid, Publishes))],
                           [ByViewer(pid, FindsFault), ByViewer(pid, Publishes)];
      assert Continues(s, states, steps) && !states[|steps|].status.Cleaned?;
    } else {
      var states, steps := [s, Apply(s, ByViewer(pid, Publishes))], [ByViewer(pid, Publishes)];
      assert Continues(s, states, steps) && !states[|steps|].status.Cleaned?;
    }
  }

  /** A settled `cleaned` stands for good. */
  lemma {:induction false} SettledForGood(s: State, states: seq<State>, steps: seq<Step>, j: nat)
    requires Inv(s) && Settled(s) && Continues(s, states, steps) && j < |states|
    ensures Inv(states[j]) && Settled(states[j])
  {
    if j > 0 {
      SettledForGood(s, states, steps, j - 1);
      StepKeeps(states[j - 1], steps[j - 1]);
      SettledStays(states[j - 1], steps[j - 1]);
    }
  }

  /**
   * In any reachable state that reports `cleaned`, the report stands whatever happens from there on
   * exactly when no status command is at work and no cleanup command can still conclude otherwise.
   */
  lemma CleanedStandsIffSettled(s: State)
    requires Reachable(s) && s.status.Cleaned?
    ensures Settled(s)
       <==> forall states: seq<State>, steps :: Continues(s, states, steps) ==> states[|steps|].status.Cleaned?
  {
    ReachableHolds(s);
    if Settled(s) {
      forall states: seq<State>, steps | Continues(s, states, steps)
        ensures states[|steps|].status.Cleaned?
      {
        SettledForGood(s, states, steps, |steps|);
      }
    } else {
      UnsettledLoses(s);
    }
  }

  lemma UnsettledLoses(s: State)
    requires Inv(s) && s.status.Cleaned? && !Settled(s)
    ensures CanBeLost(s)
  {
    if pid :| pid in s.viewers {
      ViewerLoses(s, pid);
    } else {
      var pid :| pid in s.recoveries && CanOverwrite(s.recoveries[pid]);
      OverwriterOverwrites(s, pid);
      var t :| Leads(s, pid, t) && !t.status.Cleaned?;
      LeadsLoses(s, pid, t);
    }
  }

  // ---------------------------------------------------------------------- runs

  ghost predicate Reachable(s: State) {
    exists states, steps :: Run(states, steps) && states[|steps|] == s
  }

  lemma Next(s: State, step: Step) returns (t: State)
    requires Reachable(s) && Enabled(s, step)
    ensures Reachable(t) && t == Apply(s, step)
  {
    t := Apply(s, step);
    var states, steps :| Run(states, steps) && states[|steps|] == s;
    var longer, more := states + [t], steps + [step];
    assert Run(longer, more) && longer[|more|] == t;
  }

  /** What a command alone leads to is reachable, and leaves processes and other commands as they were. */
  ghost predicate Beside(s: State, pid: Pid, t: State) {
    && t.alive == s.alive && t.reused == s.reused && t.recorded == s.recorded && t.controller == s.controller
    && t.recoveries - {pid} == s.recoveries - {pid} && t.viewers == s.viewers
  }

  lemma TouchesNoOther(s: State, r: Recovery, move: Move)
    requires MayMove(s, r, move)
    ensures var t := Touched(s, r, move);
      && t.alive == s.alive && t.reused == s.reused && t.recorded == s.recorded && t.controller == s.controller
      && t.recoveries == s.recoveries && t.viewers == s.viewers
  {
  }

  lemma PlacesNoOther(s: State, pid: Pid, r: Option<Recovery>)
    ensures var t := Placed(s, pid, r);
      && t.alive == s.alive && t.reused == s.reused && t.recorded == s.recorded && t.controller == s.controller
      && t.recoveries - {pid} == s.recoveries - {pid} && t.viewers == s.viewers
  {
  }

  lemma BesideStep(s: State, pid: Pid, t: State, move: Move)
    requires Beside(s, pid, t) && Enabled(t, ByCleanup(pid, move))
    ensures Beside(s, pid, Apply(t, ByCleanup(pid, move)))
  {
    if pid in t.recoveries {
      var r := t.recoveries[pid];
      TouchesNoOther(t, r, move);
      PlacesNoOther(Touched(t, r, move), pid, Moved(t, r, move));
    } else {
      PlacesNoOther(t, pid, Begun(t));
    }
  }

  lemma {:induction false} PathReaches(pid: Pid, states: seq<State>, moves: seq<Move>, i: nat)
    requires Path(pid, states, moves) && i < |states| && Reachable(states[0])
    ensures Reachable(states[i]) && Beside(states[0], pid, states[i])
  {
    if i > 0 {
      PathReaches(pid, states, moves, i - 1);
      var t := Next(states[i - 1], ByCleanup(pid, moves[i - 1]));
      BesideStep(states[0], pid, states[i - 1], moves[i - 1]);
    }
  }

  lemma LeadsReaches(s: State, pid: Pid, t: State)
    requires Reachable(s) && Leads(s, pid, t)
    ensures Reachable(t) && Beside(s, pid, t)
  {
    var states, moves :| Path(pid, states, moves) && states[0] == s && states[|moves|] == t;
    PathReaches(pid, states, moves, |moves|);
  }

  lemma ReachableHolds(s: State)
    requires Reachable(s)
    ensures Inv(s)
  {
    var states, steps :| Run(states, steps) && states[|steps|] == s;
    RunKeeps(states, steps, |steps|);
  }

  lemma CleanedIsGone(s: State)
    requires Reachable(s) && s.everCleaned
    ensures AllGone(s) && Witness !in s.files
  {
    ReachableHolds(s);
    InOrder(Witness);
  }

  /** The controller has got so far, undisturbed. */
  predicate Undisturbed(s: State, at: ControllerAt, alive: set<Role>) {
    && s.controller == at && s.alive == alive && s.reused == {} && !s.paused
    && s.recoveries == map[] && s.viewers == map[] && s.flags == Flags(true, false, false)
    && (s.cluster || at.WritingKey?) && s.status.Preparing? && !s.everCleaned
  }

  lemma Started() returns (s: State)
    ensures Reachable(s) && Undisturbed(s, WritingKey, {Controller})
  {
    s := INITIAL;
    var states, steps: seq<Step> := [INITIAL], [];
    assert Run(states, steps) && states[|steps|] == s;
  }

  lemma Spawning(start: State) returns (s: State)
    requires Reachable(start) && Undisturbed(start, WritingKey, {Controller})
    ensures Reachable(s) && Undisturbed(s, SpawningApi, {Controller, Postgres})
  {
    s := Next(start, ByController(WritesNext));
    s := Next(s, ByController(StartsCluster(true)));
    s := Next(s, ByController(WritesNext));
  }

  lemma Spawned(start: State) returns (s: State)
    requires Reachable(start) && Undisturbed(start, SpawningApi, {Controller, Postgres})
    ensures Reachable(s) && Undisturbed(s, WritingReceipt, {Controller, Postgres, Api, Worker})
  {
    s := Next(start, ByController(Spawns));
    s := Next(s, ByController(Spawns));
  }

  lemma Writing(start: State, alive: set<Role>) returns (s: State)
    requires Reachable(start) && Undisturbed(start, WritingReceipt, alive) && Controller in alive
    ensures Reachable(s) && Undisturbed(s, Recording, alive)
  {
    s := Next(start, ByController(WritesNext));
    s := Next(s, ByController(WritesNext));
    s := Next(s, ByController(WritesNext));
  }

  /** The witness is recorded, and every process of the run has died since. */
  predicate Abandoned(s: State) {
    && Witness in s.files && s.recorded && NoProcess(s) && s.recoveries == map[]
    && s.status.Running? && !s.everCleaned
  }

  lemma Abandoning() returns (s: State)
    ensures Reachable(s) && Abandoned(s)
  {
    s := Started();
    s := Spawning(s);
    s := Spawned(s);
    s := Writing(s, s.alive);
    s := Next(s, ByController(Records));
    s := Dying(s);
  }

  lemma Dying(start: State) returns (s: State)
    requires Reachable(start) && start.alive == {Controller, Api, Worker, Postgres} && start.reused == {}
    requires Witness in start.files && start.recorded && start.recoveries == map[]
    requires start.status.Running? && !start.everCleaned
    ensures Reachable(s) && Abandoned(s)
  {
    s := Next(start, ByWorld(ProcessDies(Controller)));
    s := Next(s, ByWorld(ProcessDies(Api)));
    s := Next(s, ByWorld(ProcessDies(Worker)));
    s := Next(s, ByWorld(ProcessDies(Postgres)));
  }

  /**
   * A recovery cut off between removing the witness and reporting: nothing is left, and no later
   * command can report it.
   */
  lemma LostReport()
    ensures exists s :: Reachable(s) && s.recorded && !s.everCleaned && AllGone(s) && WithoutWitness(s)
  {
    var s := Abandoning();
    var t := Clears(s, 1);
    LeadsReaches(s, 1, t);
    t := CutOff(s, 1, t);
    ReachableHolds(t);
  }

  lemma CutOff(s: State, pid: Pid, at: State) returns (t: State)
    requires Reachable(at) && Beside(s, pid, at) && AllRemoved(at, pid)
    requires Controller !in s.alive && s.recoveries == map[] && !at.status.Cleaned?
    ensures Reachable(t) && t.recorded == at.recorded && t.everCleaned == at.everCleaned && WithoutWitness(t)
  {
    t := Next(at, ByCleanup(pid, Dies));
    assert t.recoveries == s.recoveries - {pid};
  }

  /**
   * Two commands: the one begun first waits while the second cleans and reports `cleaned`, then
   * finds no witness and overwrites the report for good.
   */
  lemma SecondReportOverwrites()
    ensures exists s :: Reachable(s) && s.everCleaned && AllGone(s) && WithoutWitness(s) && s.recoveries == map[]
  {
    var s := Abandoning();
    s := Next(s, ByCleanup(2, Begins));
    var t := Clears(s, 1);
    t := Concluded(s, 1, t);
    LeadsReaches(s, 1, t);
    t := OtherConcludes(s, t);
    ReachableHolds(t);
  }

  lemma OtherConcludes(s: State, at: State) returns (t: State)
    requires Reachable(at) && Beside(s, 1, at) && at.status.Cleaned? && 1 !in at.recoveries
    requires Controller !in s.alive && s.recoveries == map[2 := Recovery(Deciding, true, false, NONE)]
    ensures Reachable(t) && t.everCleaned && WithoutWitness(t) && t.recoveries == map[]
  {
    ReachableHolds(at);
    CleanedIsGone(at);
    assert at.recoveries - {1} == at.recoveries && s.recoveries - {1} == s.recoveries;
    t := DecidesAlone(at);
    t := Next(t, ByCleanup(2, Abandons));
    t := Next(t, ByCleanup(2, Concludes));
  }

  lemma DecidesAlone(at: State) returns (t: State)
    requires Reachable(at) && at.everCleaned && Witness !in at.files && Controller !in at.alive
    requires at.recoveries == map[2 := Recovery(Deciding, true, false, NONE)]
    ensures Reachable(t) && t.everCleaned && Witness !in t.files && Controller !in t.alive
    ensures t.recoveries == map[2 := Recovery(ReadingWitness, true, false, NONE)]
  {
    t := Next(at, ByCleanup(2, Decides));
  }

  // ------------------------------------------------------- a status command in between

  /** One status command is checking a run that was running; the controller has got so far. */
  predicate Watched(s: State, at: ControllerAt) {
    && s.controller == at && Controller in s.alive && !s.paused && s.cluster && s.recorded
    && s.recoveries == map[] && s.viewers == map[1 := Checking] && s.flags.processesAbsent
  }

  lemma Watching() returns (s: State)
    ensures Reachable(s) && Watched(s, Serving) && s.alive == {Controller, Api, Worker, Postgres}
  {
    s := Started();
    s := Spawning(s);
    s := Spawned(s);
    s := Writing(s, s.alive);
    s := Next(s, ByController(Records));
    s := Next(s, ByViewer(1, Sees));
  }

  lemma EndingChildren(start: State) returns (s: State)
    requires Reachable(start) && Watched(start, Serving) && start.alive == {Controller, Api, Worker, Postgres}
    ensures Reachable(s) && Watched(s, EndingCluster)
  {
    s := Next(start, ByController(EndsServing(false)));
    s := Next(s, ByWorld(ProcessDies(Api)));
    s := Next(s, ByController(SeesExit));
    s := Next(s, ByWorld(ProcessDies(Worker)));
    s := Next(s, ByController(SeesExit));
  }

  lemma EndingStorage(start: State) returns (s: State)
    requires Reachable(start) && Watched(start, EndingCluster)
    ensures Reachable(s) && Watched(s, Removing(0)) && s.flags.storageAbsent
  {
    s := Next(start, ByController(StopsCluster(true)));
    s := Next(s, ByController(ChecksStorage));
  }

  lemma {:induction false} EndingFiles(start: State, next: nat) returns (s: State)
    requires Reachable(start) && Watched(start, Removing(next)) && next < |ORDER| && start.flags.storageAbsent
    ensures Reachable(s) && Watched(s, Reporting) && Report(s.flags).Cleaned?
    decreases |ORDER| - next
  {
    s := Next(start, ByController(RemovesNext));
    if next + 1 < |ORDER| {
      s := EndingFiles(s, next + 1);
    }
  }

  /** The controller cleans up and reports it, and the status command has not finished. */
  lemma CleanedWhileWatched() returns (s: State)
    ensures Reachable(s) && Watched(s, Finished) && s.status.Cleaned? && s.everCleaned
  {
    s := Watching();
    s := EndingChildren(s);
    s := EndingStorage(s);
    s := EndingFiles(s, 0);
    s := Next(s, ByController(Reports));
  }

  lemma ThreeSteps(s: State, x: Step, y: Step, z: Step) returns (states: seq<State>, steps: seq<Step>)
    requires Enabled(s, x) && Enabled(Apply(s, x), y) && Enabled(Apply(Apply(s, x), y), z)
    ensures steps == [x, y, z] && Continues(s, states, steps) && states[3] == Apply(Apply(Apply(s, x), y), z)
  {
    var t := Apply(s, x);
    var u := Apply(t, y);
    states, steps := [s, t, u, Apply(u, z)], [x, y, z];
  }

  /** The status command publishes what it missed, and the controller ends. */
  lemma Overwritten(s: State) returns (t: State)
    requires Reachable(s) && Watched(s, Finished) && s.status.Cleaned? && s.everCleaned
    ensures var (x, y, z) := (ByViewer(1, FindsFault), ByViewer(1, Publishes), ByWorld(ProcessDies(Controller)));
      && Enabled(s, x) && Enabled(Apply(s, x), y) && Enabled(Apply(Apply(s, x), y), z)
      && t == Apply(Apply(Apply(s, x), y), z)
    ensures Reachable(t) && t.status.RuntimeUnknown? && t.everCleaned && t.recoveries == map[] && t.viewers == map[]
      && Controller !in t.alive
  {
    t := Next(s, ByViewer(1, FindsFault));
    t := Next(t, ByViewer(1, Publishes));
    t := Next(t, ByWorld(ProcessDies(Controller)));
  }

  /**
   * A status command that saw the run running outlives the controller's own teardown, misses the
   * witness, and puts `runtime_unknown` over `cleaned` for good; no cleanup command is ever at work.
   */
  lemma StatusCommandOverwrites()
    ensures exists s, states: seq<State>, steps: seq<Step> ::
      && Reachable(s) && s.status.Cleaned? && s.recoveries == map[] && Continues(s, states, steps)
      && (forall k :: 0 <= k < |steps| ==> !steps[k].ByCleanup?)
      && states[|steps|].status.RuntimeUnknown? && AllGone(states[|steps|]) && WithoutWitness(states[|steps|])
  {
    var s := CleanedWhileWatched();
    var t := Overwritten(s);
    CleanedIsGone(t);
    var states, steps := ThreeSteps(s, ByViewer(1, FindsFault), ByViewer(1, Publishes),
                                    ByWorld(ProcessDies(Controller)));
    assert states[|steps|] == t;
  }
}
