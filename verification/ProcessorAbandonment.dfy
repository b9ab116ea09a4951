/** Runs that stay BLOCKED with nobody executing them: which failures cause that, and that no
    later step of the chain processor picks them up. */
module ProcessorAbandonment {
  import opened Subscriptions
  import opened ProcessorTables
  import opened ProcessorProtocol
  import opened ProcessorShape
  import opened ProcessorRuns
  import opened ProcessorProjection
  import opened ProcessorTheorems

  /** A run of a tracked id that is marked BLOCKED while no task executes it. */
  ghost predicate Abandoned(s: State, key: Key) {
    key.id in s.tab.tracked && key in s.tab.pending && s.tab.pending[key].Blocked? && forall t :: !Executing(s, t, key)
  }

  predicate Left(v: RunView) { v.tracked && v.slot == Holds(Blocked) && v.exec == map[] }

  lemma {:induction false} AbandonedView(E: Env, s: State, key: Key)
    ensures Abandoned(s, key) <==> Left(View(E, s, key))
  {
    NobodyExecutes(E, s, key);
  }

  // --------------------------------------------------------------- abandoned for its period

  /** No move takes up an abandoned run, short of untracking its id or forcing it. */
  lemma {:induction false} LeftKept(v: RunView, m: Move)
    requires Guarded(v) && Left(v) && Can(v, m) && !m.Untracked? && !m.Force?
    ensures Left(Do(v, m))
  {
  }

  lemma {:induction false} StaysUntracked(v: RunView, m: Move)
    requires Can(v, m) && !m.TrackAnew? && (m.Untracked? || !v.tracked)
    ensures !Do(v, m).tracked
  {
  }

  lemma {:induction false} LeftKeptByAll(v: RunView, ms: Moves)
    requires Guarded(v) && Left(v) && CanAll(v, ms) && AllowsAll(Blocking, v, ms) && DoAll(v, ms).tracked
    requires !ms.first.Force? && !TouchesLog(ms.second) && !TouchesLog(ms.third)
    ensures Left(DoAll(v, ms))
  {
    var v1 := Do(v, ms.first);
    var v2 := Do(v1, ms.second);
    if ms.first.Untracked? || ms.second.Untracked? || ms.third.Untracked? {
      if ms.first.Untracked? { StaysUntracked(v, ms.first); }
      if !v1.tracked || ms.second.Untracked? { StaysUntracked(v1, ms.second); }
      StaysUntracked(v2, ms.third);
      assert false;
    }
    GuardedKept(v, ms.first);
    LeftKept(v, ms.first);
    GuardedKept(v1, ms.second);
    LeftKept(v1, ms.second);
    LeftKept(v2, ms.third);
  }

  /** The id stays tracked all along, and no delegated message forces this run. */
  ghost predicate LeftAlone(E: Env, s: State, steps: seq<Step>, key: Key)
    decreases |steps|
  {
    key.id in s.tab.tracked
    && (steps == [] ||
        (Enabled(E, s, steps[0]) && steps[0] != EvictMessage(key) && LeftAlone(E, Apply(E, s, steps[0]), steps[1..], key)))
  }

  lemma {:induction false} AbandonedStep(E: Env, s: State, step: Step, key: Key)
    requires Shape(E, s) && Guarded(View(E, s, key)) && Abandoned(s, key)
    requires Enabled(E, s, step) && Orderly(E, s, step, key, Blocking) && step != EvictMessage(key)
    requires key.id in Apply(E, s, step).tab.tracked
    ensures Abandoned(Apply(E, s, step), key) && PeriodLog(Apply(E, s, step), key) == PeriodLog(s, key)
  {
    AbandonedView(E, s, key);
    AbandonedView(E, Apply(E, s, step), key);
    LeftStep(E, s, step, key);
    PeriodLogIsComplete(E, s, step, key);
    if step.TaskSends? { assert !Executing(s, step.task, key); }
  }

  lemma {:induction false} LeftStep(E: Env, s: State, step: Step, key: Key)
    requires Shape(E, s) && Guarded(View(E, s, key)) && Left(View(E, s, key))
    requires Enabled(E, s, step) && Orderly(E, s, step, key, Blocking) && step != EvictMessage(key)
    requires View(E, Apply(E, s, step), key).tracked
    ensures Left(View(E, Apply(E, s, step), key))
  {
    StepProjects(E, s, step, key);
    OrderlyAllows(E, s, step, key, Blocking);
    LogMoves(E, s, step, key);
    LeftKeptByAll(View(E, s, key), MovesOf(E, s, step, key));
  }

  lemma {:induction false} AbandonedStays(E: Env, s: State, steps: seq<Step>, key: Key)
    requires Shape(E, s) && Guarded(View(E, s, key)) && Abandoned(s, key)
    requires OrderlyRun(E, s, steps, key, Blocking) && LeftAlone(E, s, steps, key)
    ensures Run(E, s, steps)
    ensures Abandoned(Final(E, s, steps), key) && PeriodLog(Final(E, s, steps), key) == PeriodLog(s, key)
    decreases |steps|
  {
    if steps != [] {
      AbandonedStep(E, s, steps[0], key);
      StepKeeps(E, s, steps[0], key, Blocking);
      AbandonedStays(E, Apply(E, s, steps[0]), steps[1..], key);
    }
  }

  /** A run once abandoned is never executed again in its period: no task picks it up and no
      transaction is sent for it. */
  lemma {:induction false} AbandonedForever(
    E: Env, start: real, before: seq<Step>, s: State, steps: seq<Step>, key: Key)
    requires Reached(E, start, before, s, key, Blocking) && Abandoned(s, key)
    requires OrderlyRun(E, s, steps, key, Blocking) && LeftAlone(E, s, steps, key)
    ensures Run(E, s, steps)
    ensures Abandoned(Final(E, s, steps), key) && PeriodLog(Final(E, s, steps), key) == PeriodLog(s, key)
  {
    ReachedKeeps(E, start, before, s, key, Blocking);
    AbandonedStays(E, s, steps, key);
  }

  // ------------------------------------------------------------------ what abandons a run

  /** A task of a tracked id ends without releasing its run: after an unexpected error, or after
      a failed simulation or delivery unless that untracks the id, as it does for an on-chain
      callback. */
  ghost predicate FailsToRelease(E: Env, s: State, step: Step, key: Key) {
    (step.TaskRaises? || step.TaskDeliveryFails? || step.TaskSimulationFails?)
    && Executing(s, step.task, key) && key.id in s.tab.tracked
    && (step.TaskRaises? || key.id.Delegated? || !IsCallback(E.terms(key.id)))
  }

  /** Only a dropped task can turn a run into an abandoned one. */
  lemma {:induction false} OnlyDropLeaves(v: RunView, m: Move)
    requires Guarded(v) && Can(v, m) && !Left(v) && Left(Do(v, m))
    ensures m.Drop?
  {
  }

  lemma {:induction false} DropLeaves(v: RunView, task: nat)
    requires Guarded(v) && task in v.exec && v.tracked
    ensures Left(Do(v, Drop(task)))
  {
    assert v.exec.Keys == {task};
  }

  lemma {:induction false} TaskDropMoves(E: Env, s: State, step: Step, key: Key)
    requires Shape(E, s) && Enabled(E, s, step) && IsTaskStep(step)
    ensures var ms := MovesOf(E, s, step, key);
      !ms.second.Drop? && !ms.third.Drop?
      && (ms.first.Drop? ==> Executing(s, step.task, key) && ms.first.task == step.task)
      && (ms.first.Drop? && !step.TaskContainerFails? ==>
            (ms.second.Untracked? || ms.third.Untracked? <==>
               !step.TaskRaises? && key.id.OnChain? && IsCallback(E.terms(key.id))))
      && (ms.first.Drop? ==>
            step.TaskRaises? || step.TaskDeliveryFails? || step.TaskSimulationFails?
            || (step.TaskContainerFails? && key !in s.tab.pending))
  {
  }

  lemma {:induction false} OtherDropMoves(E: Env, s: State, step: Step, key: Key)
    requires Shape(E, s) && Enabled(E, s, step) && !IsTaskStep(step)
    ensures var ms := MovesOf(E, s, step, key); !ms.first.Drop? && !ms.second.Drop? && !ms.third.Drop?
  {
  }

  lemma {:induction false} LeftByMoves(v: RunView, ms: Moves)
    requires Guarded(v) && CanAll(v, ms) && AllowsAll(Blocking, v, ms) && !Left(v) && Left(DoAll(v, ms))
    ensures ms.first.Drop? || ms.second.Drop? || ms.third.Drop?
  {
    var v1 := Do(v, ms.first);
    var v2 := Do(v1, ms.second);
    GuardedKept(v, ms.first);
    GuardedKept(v1, ms.second);
    if !Left(v1) {
      if Left(v2) { OnlyDropLeaves(v1, ms.second); } else { OnlyDropLeaves(v2, ms.third); }
    } else {
      OnlyDropLeaves(v, ms.first);
    }
  }

  lemma {:induction false} FailingMoves(E: Env, s: State, step: Step, key: Key)
    requires Shape(E, s) && Enabled(E, s, step) && FailsToRelease(E, s, step, key)
    ensures MovesOf(E, s, step, key) == One(Drop(step.task))
  {
  }

  lemma {:induction false} FailureAbandons(E: Env, s: State, step: Step, key: Key)
    requires Shape(E, s) && Guarded(View(E, s, key)) && Enabled(E, s, step) && FailsToRelease(E, s, step, key)
    ensures Left(View(E, Apply(E, s, step), key))
  {
    StepProjects(E, s, step, key);
    FailingMoves(E, s, step, key);
    ExecutingView(E, s, step.task, key);
    DropLeaves(View(E, s, key), step.task);
  }

  /** What untracks the id, or finds it untracked, leaves it so. */
  lemma {:induction false} EndsUntracked(v: RunView, ms: Moves)
    requires CanAll(v, ms) && !ms.first.TrackAnew? && !ms.second.TrackAnew? && !ms.third.TrackAnew?
    requires !v.tracked || ms.second.Untracked? || ms.third.Untracked?
    ensures !DoAll(v, ms).tracked
  {
    var v1 := Do(v, ms.first);
    if !v.tracked { StaysUntracked(v, ms.first); }
    if !v1.tracked || ms.second.Untracked? { StaysUntracked(v1, ms.second); }
    StaysUntracked(Do(v1, ms.second), ms.third);
  }

  lemma {:induction false} AbandonedByFailure(E: Env, s: State, step: Step, key: Key)
    requires Shape(E, s) && Guarded(View(E, s, key)) && Enabled(E, s, step) && IsTaskStep(step)
    requires Projects(E, s, Apply(E, s, step), MovesOf(E, s, step, key), key)
    requires MovesOf(E, s, step, key).first.Drop? && Left(View(E, Apply(E, s, step), key))
    ensures FailsToRelease(E, s, step, key)
  {
    var v, ms := View(E, s, key), MovesOf(E, s, step, key);
    TaskDropMoves(E, s, step, key);
    LogMoves(E, s, step, key);
    if !v.tracked || ms.second.Untracked? || ms.third.Untracked? { EndsUntracked(v, ms); }
    ExecutingView(E, s, step.task, key);
  }

  /** Over every step: a run becomes abandoned if and only if its task fails in one of these
      ways. */
  lemma {:induction false} FailureAbandonsExactly(E: Env, s: State, step: Step, key: Key)
    requires Shape(E, s) && Guarded(View(E, s, key)) && !Abandoned(s, key)
    requires Enabled(E, s, step) && Orderly(E, s, step, key, Blocking)
    ensures Abandoned(Apply(E, s, step), key) <==> FailsToRelease(E, s, step, key)
  {
    AbandonedView(E, s, key);
    AbandonedView(E, Apply(E, s, step), key);
    if FailsToRelease(E, s, step, key) {
      FailureAbandons(E, s, step, key);
    } else if Abandoned(Apply(E, s, step), key) {
      StepProjects(E, s, step, key);
      OrderlyAllows(E, s, step, key, Blocking);
      LeftByMoves(View(E, s, key), MovesOf(E, s, step, key));
      if IsTaskStep(step) {
        TaskDropMoves(E, s, step, key);
        AbandonedByFailure(E, s, step, key);
      } else {
        OtherDropMoves(E, s, step, key);
      }
      assert false;
    }
  }
}
