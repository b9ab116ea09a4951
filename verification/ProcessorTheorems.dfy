/** The guarantees of the chain processor, for one run (id, interval) at a time: each needs only
    what its level asks of the moments at which this one id is tracked anew or this one run is
    forced to execute again; all other ids may behave in any way. */
module ProcessorTheorems {
  import opened Subscriptions
  import opened ProcessorTables
  import opened ProcessorProtocol
  import opened ProcessorShape
  import opened ProcessorRuns
  import opened ProcessorProjection

  // -------------------------------------------------------------------- orderly behaviour

  /** The step respects the run at this level. */
  ghost predicate Orderly(E: Env, s: State, step: Step, key: Key, level: Level) {
    match step
    case TrackMessage(id, _) => id != key.id || id in s.tab.tracked || MayTrackAnew(level, View(E, s, key))
    case EvictMessage(k) => k != key || MayForce(level, View(E, s, key))
    case _ => true
  }

  ghost predicate OrderlyRun(E: Env, s: State, steps: seq<Step>, key: Key, level: Level)
    decreases |steps|
  {
    steps == [] ||
    (Enabled(E, s, steps[0]) && Orderly(E, s, steps[0], key, level)
     && OrderlyRun(E, Apply(E, s, steps[0]), steps[1..], key, level))
  }

  /** s is reached from the start by a run that respects `key` at this level. */
  ghost predicate Reached(E: Env, start: real, steps: seq<Step>, s: State, key: Key, level: Level) {
    OrderlyRun(E, Init(start), steps, key, level) && Run(E, Init(start), steps) && s == Final(E, Init(start), steps)
  }

  /** Only tracking and forcing can be disorderly. */
  lemma {:induction false} OrderlyAllows(E: Env, s: State, step: Step, key: Key, level: Level)
    requires Shape(E, s) && Enabled(E, s, step) && Orderly(E, s, step, key, level)
    requires CanAll(View(E, s, key), MovesOf(E, s, step, key))
    ensures AllowsAll(level, View(E, s, key), MovesOf(E, s, step, key))
  {
    LogMoves(E, s, step, key);
  }

  /** An orderly step keeps the invariant of its level. */
  lemma {:induction false} StepKeeps(E: Env, s: State, step: Step, key: Key, level: Level)
    requires Shape(E, s) && Invariant(level, View(E, s, key))
    requires Enabled(E, s, step) && Orderly(E, s, step, key, level)
    ensures Shape(E, Apply(E, s, step)) && Invariant(level, View(E, Apply(E, s, step), key))
  {
    StepProjects(E, s, step, key);
    OrderlyAllows(E, s, step, key, level);
    MovesKeep(level, View(E, s, key), MovesOf(E, s, step, key));
  }

  lemma {:induction false} RunKeeps(E: Env, s: State, steps: seq<Step>, key: Key, level: Level)
    requires Shape(E, s) && Invariant(level, View(E, s, key)) && OrderlyRun(E, s, steps, key, level)
    ensures Run(E, s, steps) && Shape(E, Final(E, s, steps)) && Invariant(level, View(E, Final(E, s, steps), key))
    decreases |steps|
  {
    if steps != [] {
      StepKeeps(E, s, steps[0], key, level);
      RunKeeps(E, Apply(E, s, steps[0]), steps[1..], key, level);
    }
  }

  lemma {:induction false} InitHolds(E: Env, now: real, key: Key, level: Level)
    ensures Shape(E, Init(now)) && Invariant(level, View(E, Init(now), key))
  {
    assert ExecOf(map[], key) == map[];
    assert View(E, Init(now), key) == RunView(Past(E, now, key), false, Empty, 0, map[], false, Unlisted, false, [], [], 0, map[]);
  }

  lemma {:induction false} ReachedKeeps(E: Env, start: real, steps: seq<Step>, s: State, key: Key, level: Level)
    requires Reached(E, start, steps, s, key, level)
    ensures Shape(E, s) && Invariant(level, View(E, s, key))
  {
    InitHolds(E, start, key, level);
    RunKeeps(E, Init(start), steps, key, level);
  }

  // ------------------------------------------------------------------ exclusive dispatch

  ghost predicate Executing(s: State, t: nat, key: Key) {
    t in s.tasks && Executes(s.tasks[t], key)
  }

  ghost predicate SoleExecutor(s: State, key: Key) {
    forall t, u :: Executing(s, t, key) && Executing(s, u, key) ==> t == u
  }

  lemma {:induction false} ExecutingView(E: Env, s: State, t: nat, key: Key)
    ensures Executing(s, t, key) <==> t in View(E, s, key).exec
    ensures Executing(s, t, key) ==> View(E, s, key).exec[t] == ProgressOf(s.tasks[t])
  {
  }

  /** The view of a run shows whether anybody executes it. */
  lemma {:induction false} NobodyExecutes(E: Env, s: State, key: Key)
    ensures View(E, s, key).exec == map[] <==> forall t :: !Executing(s, t, key)
  {
    var exec := View(E, s, key).exec;
    forall t ensures Executing(s, t, key) <==> t in exec { ExecutingView(E, s, t, key); }
    if forall t :: !Executing(s, t, key) { assert forall t :: t !in exec; }
  }

  lemma {:induction false} ExclusiveIsSole(E: Env, s: State, key: Key)
    requires Alone(View(E, s, key))
    ensures SoleExecutor(s, key)
  {
    forall t, u | Executing(s, t, key) && Executing(s, u, key) ensures t == u {
      ExecutingView(E, s, t, key);
      ExecutingView(E, s, u, key);
    }
  }

  /** At most one task executes a run; and while its id is tracked and its interval lasts, the
      run is BLOCKED, unless the dispatcher is about to untrack the id over this very run.
      Attempt counts and pending hashes left from an earlier period do not matter. */
  lemma {:induction false} ExclusiveDispatch(E: Env, start: real, steps: seq<Step>, s: State, key: Key)
    requires Reached(E, start, steps, s, key, Exclusion)
    ensures SoleExecutor(s, key)
    ensures forall t :: Executing(s, t, key) && key.id in s.tab.tracked && !Past(E, s.now, key) && !Doomed(s.disp, key) ==>
      key in s.tab.pending && s.tab.pending[key].Blocked?
  {
    ReachedKeeps(E, start, steps, s, key, Exclusion);
    ExclusiveIsSole(E, s, key);
    forall t | Executing(s, t, key) ensures t in View(E, s, key).exec { ExecutingView(E, s, t, key); }
  }

  /** If the id is not tracked anew while one of its tasks executes the run or a prune pass
      still lists the run without its hash, an executed run of a tracked id is always BLOCKED,
      also after its interval. */
  lemma {:induction false} BlockedWhileExecuting(E: Env, start: real, steps: seq<Step>, s: State, key: Key, t: nat)
    requires Reached(E, start, steps, s, key, Blocking)
    requires Executing(s, t, key) && key.id in s.tab.tracked
    ensures SoleExecutor(s, key) && key in s.tab.pending && s.tab.pending[key].Blocked?
  {
    ReachedKeeps(E, start, steps, s, key, Blocking);
    ExclusiveIsSole(E, s, key);
    ExecutingView(E, s, t, key);
  }

  // ---------------------------------------------------------------------- eviction safety

  /** Whatever ran while a prune pass was waiting for receipts, an entry it evicts is still the
      hash it copied, that transaction was found on chain and failed, and no task executes the
      run. */
  lemma {:induction false} EvictionIsSafe(E: Env, start: real, steps: seq<Step>, s: State, key: Key)
    requires Reached(E, start, steps, s, key, Blocking) && Enabled(E, s, PruneFinish)
    requires Evicts(E, s, key)
    ensures key in s.lock.snap && s.tab.pending[key] == s.lock.snap[key]
    ensures s.tab.pending[key].Tx? && FailedTx(s.receipts, s.tab.pending[key].hash)
    ensures forall t :: !Executing(s, t, key)
  {
    ReachedKeeps(E, start, steps, s, key, Blocking);
    EvictedIsFailing(E, s, key);
    NobodyExecutes(E, s, key);
  }

  /** The end of a prune pass evicts the entry of the run. */
  ghost predicate Evicts(E: Env, s: State, key: Key)
    requires Enabled(E, s, PruneFinish)
  {
    key in s.tab.pending && key !in Apply(E, s, PruneFinish).tab.pending
  }

  lemma {:induction false} EvictedIsFailing(E: Env, s: State, key: Key)
    requires Shape(E, s) && Enabled(E, s, PruneFinish) && Evicts(E, s, key)
    ensures Failed(s, key) && View(E, s, key).listing == Failing(s.lock.snap[key].hash)
    ensures AttemptCount(s.tab, key) + 1 < MAX_ATTEMPTS
  {
    EvictAllAt(s.tab, s.lock.failed, key);
    assert Failed(s, key);
  }

  /** An eviction that takes a live run from a task: its entry is the BLOCKED marker, or some
      task executes it.  (A run whose interval is over is never dispatched again, and one that is
      given up is untracked next.) */
  ghost predicate EvictsExecuted(E: Env, s: State, key: Key) {
    Enabled(E, s, PruneFinish) && Evicts(E, s, key) && !Past(E, s.now, key) && !Doomed(s.disp, key)
    && (s.tab.pending[key].Blocked? || exists t :: Executing(s, t, key))
  }

  lemma {:induction false} ExclusiveEvicts(E: Env, s: State, key: Key)
    requires Shape(E, s) && Exclusive(View(E, s, key))
    ensures !EvictsExecuted(E, s, key)
  {
    if Enabled(E, s, PruneFinish) && Evicts(E, s, key) {
      EvictedIsFailing(E, s, key);
      NobodyExecutes(E, s, key);
    }
  }

  /** For a run whose interval lasts, the condition of exclusive dispatch already keeps a prune
      pass from evicting anything but a hash that no task executes. */
  lemma {:induction false} LiveEvictionIsSafe(E: Env, start: real, steps: seq<Step>, s: State, key: Key)
    requires Reached(E, start, steps, s, key, Exclusion)
    ensures !EvictsExecuted(E, s, key)
  {
    ReachedKeeps(E, start, steps, s, key, Exclusion);
    ExclusiveEvicts(E, s, key);
  }

  // -------------------------------------------------------------------------- retry bound

  /** Since its id was tracked or it was last forced to execute again, a run is answered by at
      most three transactions, and a further one is sent only after all earlier ones failed on
      chain.  Over a tracking period that makes three per forced execution and three more. */
  lemma {:induction false} RetryBound(E: Env, start: real, steps: seq<Step>, s: State, key: Key)
    requires Reached(E, start, steps, s, key, Retries)
    ensures |Sent(s, key)| <= MAX_ATTEMPTS
    ensures forall i :: 0 <= i < |Sent(s, key)| - 1 ==> FailedTx(s.receipts, Sent(s, key)[i])
    ensures |PeriodLog(s, key)| <= MAX_ATTEMPTS * (1 + Forced(s, key))
    ensures Forced(s, key) == 0 ==> PeriodLog(s, key) == Sent(s, key)
  {
    ReachedKeeps(E, start, steps, s, key, Retries);
    var sent := Sent(s, key);
    forall i | 0 <= i < |sent| - 1 ensures FailedTx(s.receipts, sent[i]) {
      assert sent[i] == sent[..|sent| - 1][i];
    }
  }

  /** Only three kinds of moves touch the log, each for one kind of step. */
  ghost predicate LogMovesOk(s: State, step: Step, ms: Moves, key: Key)
    requires step.TaskSends? ==> step.task in s.tasks && s.tasks[step.task].Working?
  {
    !TouchesLog(ms.second) && !TouchesLog(ms.third)
    && (ms.first.TrackAnew? <==> step.TrackMessage? && step.id == key.id && key.id !in s.tab.tracked)
    && (ms.first.Force? <==> step.EvictMessage? && step.key == key)
    && (ms.first.Send? <==> step.TaskSends? && s.tasks[step.task].key == key)
    && (ms.first.Send? ==> ms.first.hash == step.hash)
  }

  lemma {:induction false} TaskLogMoves(E: Env, s: State, step: Step, key: Key)
    requires Shape(E, s) && Enabled(E, s, step) && IsTaskStep(step)
    ensures LogMovesOk(s, step, MovesOf(E, s, step, key), key)
  {
    if step.TaskStart? {
      assert StartMoves(E, s, step.task, step.t1, step.t2, key).first.Age?;
    } else if step.TaskContainerFails? {
      assert !TouchesLog(ContainerMoves(E, s, step.task, step.empty, key).first);
    }
  }

  lemma {:induction false} OtherLogMoves(E: Env, s: State, step: Step, key: Key)
    requires Shape(E, s) && Enabled(E, s, step) && (IsPruneStep(step) || IsWorldStep(step))
    ensures LogMovesOk(s, step, MovesOf(E, s, step, key), key)
  {
  }

  lemma {:induction false} DispatcherLogMoves(E: Env, s: State, step: Step, key: Key)
    requires Shape(E, s) && Enabled(E, s, step) && !IsTaskStep(step) && !IsPruneStep(step) && !IsWorldStep(step)
    ensures LogMovesOk(s, step, DispatcherMoves(E, s, step, key), key)
  {
  }

  lemma {:induction false} LogMoves(E: Env, s: State, step: Step, key: Key)
    requires Shape(E, s) && Enabled(E, s, step)
    ensures LogMovesOk(s, step, MovesOf(E, s, step, key), key)
  {
    if IsTaskStep(step) {
      TaskLogMoves(E, s, step, key);
    } else if IsPruneStep(step) || IsWorldStep(step) {
      OtherLogMoves(E, s, step, key);
    } else {
      DispatcherLogMoves(E, s, step, key);
    }
  }

  /** The log is complete: a step adds to the transactions of a tracking period exactly the one
      it sends for the run, and only tracking the id anew clears them; forced executions are
      counted one by one. */
  lemma {:induction false} PeriodLogIsComplete(E: Env, s: State, step: Step, key: Key)
    requires Shape(E, s) && Enabled(E, s, step)
    ensures PeriodLog(Apply(E, s, step), key) ==
      if step.TrackMessage? && step.id == key.id && key.id !in s.tab.tracked then []
      else if step.TaskSends? && s.tasks[step.task].key == key then PeriodLog(s, key) + [step.hash]
      else PeriodLog(s, key)
    ensures Forced(Apply(E, s, step), key) ==
      if step.TrackMessage? && step.id == key.id && key.id !in s.tab.tracked then 0
      else Forced(s, key) + if step == EvictMessage(key) then 1 else 0
  {
    StepProjects(E, s, step, key);
    LogMoves(E, s, step, key);
    PeriodLogMoves(View(E, s, key), MovesOf(E, s, step, key));
  }

  /** How often a sequence of steps forces the run. */
  function Forcings(steps: seq<Step>, key: Key): nat {
    if steps == [] then 0 else (if steps[0] == EvictMessage(key) then 1 else 0) + Forcings(steps[1..], key)
  }

  /** Over a tracking period the number of forced executions is the number of such messages. */
  lemma {:induction false} ForcedIsCount(E: Env, s: State, steps: seq<Step>, key: Key)
    requires Shape(E, s) && Run(E, s, steps)
    requires forall i :: 0 <= i < |steps| && steps[i].TrackMessage? ==> steps[i].id != key.id
    ensures Forced(Final(E, s, steps), key) == Forced(s, key) + Forcings(steps, key)
    decreases |steps|
  {
    if steps != [] {
      assert forall i :: 0 <= i < |steps[1..]| ==> steps[1..][i] == steps[i + 1];
      PeriodLogIsComplete(E, s, steps[0], key);
      StepKeepsShape(E, s, steps[0]);
      ForcedIsCount(E, Apply(E, s, steps[0]), steps[1..], key);
    }
  }

  /** For a tracked id the counter agrees with the transactions since it was tracked or the run
      was last forced: a free run has exactly as many failed transactions as counted attempts,
      at most two; an executing run is in the same position until its transaction is out. */
  lemma {:induction false} AttemptsCountTransactions(E: Env, start: real, steps: seq<Step>, s: State, key: Key)
    requires Reached(E, start, steps, s, key, Accounts) && key.id in s.tab.tracked && !Doomed(s.disp, key)
    ensures key !in s.tab.pending ==>
      |Sent(s, key)| == AttemptCount(s.tab, key) <= 2 && AllFailed(s.receipts, Sent(s, key))
    ensures forall t :: t in s.tasks && s.tasks[t] == Working(key) ==>
      |Sent(s, key)| == AttemptCount(s.tab, key) <= 2 && AllFailed(s.receipts, Sent(s, key))
    ensures key in s.tab.pending && s.tab.pending[key].Tx? ==>
      |Sent(s, key)| > 0 && s.tab.pending[key].hash == Sent(s, key)[|Sent(s, key)| - 1]
    ensures AttemptCount(s.tab, key) >= MAX_ATTEMPTS ==>
      key in s.tab.pending && s.tab.pending[key].Tx? && Exhausted(s.receipts, Sent(s, key))
  {
    ReachedKeeps(E, start, steps, s, key, Accounts);
    var v := View(E, s, key);
    forall t | t in s.tasks && s.tasks[t] == Working(key)
      ensures |v.log| == v.count <= 2 && AllFailed(v.receipts, v.log) {
      ExecutingView(E, s, t, key);
      assert TaskAndLog(v, t);
    }
    if v.count >= MAX_ATTEMPTS { LastFailed(v.receipts, v.log); }
  }

  // -------------------------------------------------------------------- dispatcher lookups

  /** The step is the retry check of the loop, on this run. */
  ghost predicate Checks(E: Env, s: State, step: Step, key: Key) {
    match step
    case ResponsesAnswer(count, _, t1, t2, _) =>
      s.disp.AskResponses? && s.disp.id == key.id && key.id in s.tab.tracked
      && !Completed(E.terms(key.id), WithCount(E, s, count), s.now) && !PastLastInterval(E.terms(key.id), t1)
      && Active(E.terms(key.id), t2) && key.interval == Interval(E.terms(key.id), t2)
    case VisitDelegated(id, t2, _, _) =>
      id == key.id && Active(E.terms(id), s.now)
      && (var run := Key(id, Interval(E.terms(id), s.now)); run in s.tab.pending ==> s.tab.pending[run].Blocked?)
      && Active(E.terms(id), t2) && key.interval == Interval(E.terms(id), t2)
    case ReceiptAnswer(ok, t2, _, _) =>
      s.disp.AskReceipt? && s.disp.id == key.id && !ok
      && Active(E.terms(key.id), t2) && key.interval == Interval(E.terms(key.id), t2)
    case _ => false
  }

  /** A run that the retry check would fail on: three attempts, and no entry to log. */
  ghost predicate Trap(s: State, key: Key) {
    AttemptCount(s.tab, key) >= MAX_ATTEMPTS && key !in s.tab.pending
  }

  lemma {:induction false} CheckCrashes(
    E: Env, s: State, phase: ProcessorProtocol.Phase, todo: set<UnionId>, id: UnionId, t2: real, t3: real, replied: bool, task: nat)
    requires id in s.tab.tracked && Active(E.terms(id), s.now) && s.now <= t2 <= t3
    ensures Active(E.terms(id), t2)
    ensures CheckRetriesAndPending(E, s, phase, todo, id, t2, t3, replied, task).disp.Crashed?
       <==> Trap(s, Key(id, Interval(E.terms(id), t2)))
  {
    CheckedAt(E, s, id, t2, t3);
  }

  lemma {:induction false} DeadlineCrash(E: Env, s: State, todo: set<UnionId>, id: UnionId, replied: bool, t1: real, t2: real, t3: real)
    requires Active(E.terms(id), s.now) && s.now <= t2 <= t3
    requires CheckDeadline(E, s, todo, id, replied, t1, t2, t3).disp.Crashed?
    ensures id in s.tab.tracked && !PastLastInterval(E.terms(id), t1) && Active(E.terms(id), t2)
    ensures Trap(s, Key(id, Interval(E.terms(id), t2)))
  {
    if id in s.tab.tracked { CheckCrashes(E, s, OnChainLoop, todo, id, t2, t3, replied, 0); }
  }

  lemma {:induction false} ResponsesCrash(E: Env, s: State, count: int, replied: bool, t1: real, t2: real, t3: real)
    requires DispOk(E, s) && s.disp.AskResponses? && s.now <= t1 <= t2 <= t3
    requires ApplyResponses(E, s, count, replied, t1, t2, t3).disp.Crashed?
    ensures Active(E.terms(s.disp.id), t2)
    ensures var key := Key(s.disp.id, Interval(E.terms(s.disp.id), t2));
      Checks(E, s, ResponsesAnswer(count, replied, t1, t2, t3), key) && Trap(s, key)
  {
    assert !Completed(E.terms(s.disp.id), WithCount(E, s, count), s.now);
    DeadlineCrash(E, s, s.disp.todo, s.disp.id, replied, t1, t2, t3);
  }

  lemma {:induction false} VisitDelegatedCrash(E: Env, s: State, id: UnionId, t2: real, t3: real, task: nat)
    requires s.disp.Loop? && id in s.tab.tracked && s.now <= t2 <= t3
    requires ApplyVisitDelegated(E, s, id, t2, t3, task).disp.Crashed?
    ensures Active(E.terms(id), t2)
    ensures var key := Key(id, Interval(E.terms(id), t2)); Checks(E, s, VisitDelegated(id, t2, t3, task), key) && Trap(s, key)
  {
    if Active(E.terms(id), s.now) {
      CheckCrashes(E, s, DelegatedLoop, s.disp.todo - {id}, id, t2, t3, false, task);
    }
  }

  lemma {:induction false} ReceiptCrash(E: Env, s: State, t2: real, t3: real, task: nat)
    requires DispOk(E, s) && s.disp.AskReceipt? && s.now <= t2 <= t3
    requires CheckRetriesAndPending(E, s, DelegatedLoop, s.disp.todo, s.disp.id, t2, t3, false, task).disp.Crashed?
    ensures Active(E.terms(s.disp.id), t2)
    ensures var key := Key(s.disp.id, Interval(E.terms(s.disp.id), t2));
      Checks(E, s, ReceiptAnswer(false, t2, t3, task), key) && Trap(s, key)
  {
    CheckCrashes(E, s, DelegatedLoop, s.disp.todo, s.disp.id, t2, t3, false, task);
  }

  /** The dispatcher, its copies and the tracked objects stay as they are. */
  ghost predicate SamePlace(s: State, s': State) {
    s'.disp == s.disp && s'.records == s.records && s'.copies == s.copies
  }

  lemma {:induction false} StartKeepsDispatcher(E: Env, s: State, task: nat, t1: real, t2: real)
    requires task in s.tasks && s.tasks[task].Spawned?
    ensures SamePlace(s, ApplyStart(E, s, task, t1, t2))
  {
    var id, s' := s.tasks[task].id, ApplyStart(E, s, task, t1, t2);
    if !Active(E.terms(id), t1) || id !in s.tab.tracked {
      assert s' == DropTask(s.(now := t2), task);
    } else if PastLastInterval(E.terms(id), t2) {
      assert s' == DropTask(s.(now := t2, tab := Untrack(s.tab, id, id.Delegated?)), task);
    }
  }

  lemma {:induction false} ContainerKeepsDispatcher(E: Env, s: State, task: nat, empty: bool)
    requires task in s.tasks && s.tasks[task].Working?
    ensures SamePlace(s, ApplyContainerFailure(E, s, task, empty))
  {
    var own, s' := s.tasks[task].key, ApplyContainerFailure(E, s, task, empty);
    if own !in s.tab.pending {
      assert s' == DropTask(s, task);
    } else {
      assert s' == DropTask(s.(tab := s'.tab), task);
    }
  }

  lemma {:induction false} TasksKeepDispatcher(E: Env, s: State, step: Step)
    requires Enabled(E, s, step) && IsTaskStep(step)
    ensures SamePlace(s, Apply(E, s, step))
  {
    if step.TaskStart? {
      StartKeepsDispatcher(E, s, step.task, step.t1, step.t2);
    } else if step.TaskContainerFails? {
      ContainerKeepsDispatcher(E, s, step.task, step.empty);
    } else {
      OthersKeepDispatcher(E, s, step);
    }
  }

  lemma {:induction false} OthersKeepDispatcher(E: Env, s: State, step: Step)
    requires Enabled(E, s, step)
    requires step.TaskSimulationFails? || step.TaskSends? || step.TaskDeliveryFails? || step.TaskRaises? || step.TaskFinishes?
    ensures SamePlace(s, Apply(E, s, step))
  {
    if step.TaskDeliveryFails? {
      DeliveryKeepsDispatcher(E, s, step.task);
    } else if step.TaskSimulationFails? {
      SimulationKeepsDispatcher(E, s, step.task);
    }
  }

  lemma {:induction false} DeliveryKeepsDispatcher(E: Env, s: State, task: nat)
    requires Enabled(E, s, TaskDeliveryFails(task))
    ensures SamePlace(s, Apply(E, s, TaskDeliveryFails(task)))
  {
  }

  lemma {:induction false} SimulationKeepsDispatcher(E: Env, s: State, task: nat)
    requires Enabled(E, s, TaskSimulationFails(task))
    ensures SamePlace(s, Apply(E, s, TaskSimulationFails(task)))
  {
  }

  lemma {:induction false} NotFoundKeepsDispatcher(s: State, key: Key)
    requires s.lock.Pruning? && key in s.lock.snap && s.lock.snap[key].Tx?
    ensures SamePlace(s, ApplyReceipt(s, key, false))
  {
  }

  lemma {:induction false} FoundKeepsDispatcher(s: State, key: Key)
    requires s.lock.Pruning? && key in s.lock.snap && s.lock.snap[key].Tx? && s.lock.snap[key].hash in s.receipts
    ensures SamePlace(s, ApplyReceipt(s, key, true))
  {
  }

  lemma {:induction false} PrunesKeepDispatcher(E: Env, s: State, step: Step)
    requires Enabled(E, s, step) && IsPruneStep(step)
    ensures SamePlace(s, Apply(E, s, step))
  {
    match step
    case PruneAcquire =>
    case PruneReceipt(key, found) => if found { FoundKeepsDispatcher(s, key); } else { NotFoundKeepsDispatcher(s, key); }
    case PruneFinish =>
    case PruneRaises =>
  }

  lemma {:induction false} WorldKeepsDispatcher(E: Env, s: State, step: Step)
    requires Enabled(E, s, step) && IsWorldStep(step)
    ensures Apply(E, s, step).disp == s.disp
  {
  }

  ghost predicate HasCheck(step: Step) {
    step.ResponsesAnswer? || step.VisitDelegated? || (step.ReceiptAnswer? && !step.ok)
  }

  /** Only the three steps with a retry check can crash the dispatcher. */
  lemma {:induction false} OnlyChecksCrash(E: Env, s: State, step: Step)
    requires Enabled(E, s, step) && !s.disp.Crashed? && !HasCheck(step)
    ensures !Apply(E, s, step).disp.Crashed?
  {
    if IsTaskStep(step) {
      TasksKeepDispatcher(E, s, step);
    } else if IsPruneStep(step) {
      PrunesKeepDispatcher(E, s, step);
    } else if IsWorldStep(step) {
      WorldKeepsDispatcher(E, s, step);
    } else if IsMove(step) {
      MovesDontCrash(E, s, step);
    } else {
      VerdictsDontCrash(E, s, step);
    }
  }

  lemma {:induction false} PayDoesntCrash(E: Env, s: State, ok: bool)
    requires s.disp.AskPay?
    ensures !Apply(E, s, PayAnswer(ok)).disp.Crashed?
  {
  }

  lemma {:induction false} CancelDoesntCrash(E: Env, s: State, cancelled: bool)
    requires s.disp.AskCancelled?
    ensures !Apply(E, s, CancelAnswer(cancelled)).disp.Crashed?
  {
  }

  lemma {:induction false} VerdictsDontCrash(E: Env, s: State, step: Step)
    requires Enabled(E, s, step)
    requires step.PayAnswer? || step.CancelAnswer? || step.RespondedAnswer? || (step.ReceiptAnswer? && step.ok)
    ensures !Apply(E, s, step).disp.Crashed?
  {
    if step.RespondedAnswer? {
      assert Apply(E, s, step).disp == Loop(OnChainLoop, s.disp.todo);
    } else if step.ReceiptAnswer? {
      assert Apply(E, s, step).disp == Loop(DelegatedLoop, s.disp.todo);
    } else if step.PayAnswer? {
      PayDoesntCrash(E, s, step.ok);
    } else {
      CancelDoesntCrash(E, s, step.cancelled);
    }
  }

  lemma {:induction false} MovesDontCrash(E: Env, s: State, step: Step)
    requires Enabled(E, s, step) && IsMove(step)
    ensures !Apply(E, s, step).disp.Crashed?
  {
  }

  lemma {:induction false} TrapCrashes(E: Env, s: State, step: Step, key: Key)
    requires DispOk(E, s) && Enabled(E, s, step) && Checks(E, s, step, key) && Trap(s, key)
    ensures Apply(E, s, step).disp.Crashed?
  {
    match step
    case ResponsesAnswer(_, replied, _, t2, t3) =>
      CheckCrashes(E, s, OnChainLoop, s.disp.todo, key.id, t2, t3, replied, 0);
    case VisitDelegated(id, t2, t3, task) =>
      assert id in s.tab.tracked;
      CheckCrashes(E, s, DelegatedLoop, s.disp.todo - {id}, id, t2, t3, false, task);
    case ReceiptAnswer(_, t2, t3, task) =>
      CheckCrashes(E, s, DelegatedLoop, s.disp.todo, key.id, t2, t3, false, task);
  }

  /** In any run whatsoever the dispatcher crashes in a step if and only if that step is the
      retry check of a trap: all its other unguarded reads find their key, and no interval of
      an inactive subscription is read. */
  lemma {:induction false} CrashExact(E: Env, s: State, step: Step)
    requires Shape(E, s) && Enabled(E, s, step) && !s.disp.Crashed?
    ensures Apply(E, s, step).disp.Crashed? <==> exists key :: Checks(E, s, step, key) && Trap(s, key)
  {
    if !HasCheck(step) {
      OnlyChecksCrash(E, s, step);
    } else if Apply(E, s, step).disp.Crashed? {
      CrashNeedsTrap(E, s, step);
    }
    if key :| Checks(E, s, step, key) && Trap(s, key) { TrapCrashes(E, s, step, key); }
  }

  lemma {:induction false} CrashNeedsTrap(E: Env, s: State, step: Step)
    requires DispOk(E, s) && Enabled(E, s, step) && HasCheck(step) && Apply(E, s, step).disp.Crashed?
    ensures exists key :: Checks(E, s, step, key) && Trap(s, key)
  {
    match step
    case ResponsesAnswer(count, replied, t1, t2, t3) => ResponsesCrash(E, s, count, replied, t1, t2, t3);
    case VisitDelegated(id, t2, t3, task) =>
      assert TodoOk(s, DelegatedLoop, s.disp.todo);
      VisitDelegatedCrash(E, s, id, t2, t3, task);
    case ReceiptAnswer(_, t2, t3, task) => ReceiptCrash(E, s, t2, t3, task);
  }

  /** A checked run is tracked, and its interval is not over. */
  lemma {:induction false} CheckedIsCurrent(E: Env, s: State, step: Step, key: Key)
    requires Shape(E, s) && Enabled(E, s, step) && Checks(E, s, step, key)
    ensures key.id in s.tab.tracked && !Past(E, s.now, key) && !s.disp.AwaitLock?
  {
    if Active(E.terms(key.id), s.now) {
      match step
      case ResponsesAnswer(_, _, _, t2, _) => IntervalMonotone(E.terms(key.id), s.now, t2);
      case VisitDelegated(_, t2, _, _) => IntervalMonotone(E.terms(key.id), s.now, t2);
      case ReceiptAnswer(_, t2, _, _) => IntervalMonotone(E.terms(key.id), s.now, t2);
    }
  }

  lemma {:induction false} ClearIsNoTrap(E: Env, s: State, step: Step, key: Key)
    requires Shape(E, s) && Clear(View(E, s, key)) && Enabled(E, s, step) && Checks(E, s, step, key)
    ensures !Trap(s, key)
  {
    CheckedIsCurrent(E, s, step, key);
    assert ClearNow(View(E, s, key));
  }

  /** The retry check of a run never crashes the dispatcher, as long as, while its interval
      lasts, its id is not tracked anew and the run is not forced over an unsettled task, and its
      id is not tracked anew with three attempts left and no entry, or with no entry while a
      prune pass can still count a failure. */
  lemma {:induction false} LookupsHit(E: Env, start: real, steps: seq<Step>, s: State, step: Step, key: Key)
    requires Reached(E, start, steps, s, key, Lookups)
    requires Enabled(E, s, step) && Checks(E, s, step, key)
    ensures !Trap(s, key)
  {
    ReachedKeeps(E, start, steps, s, key, Lookups);
    ClearIsNoTrap(E, s, step, key);
  }

  lemma {:induction false} NoCrashStep(E: Env, s: State, step: Step)
    requires Shape(E, s) && !s.disp.Crashed? && Enabled(E, s, step) && forall key :: Clear(View(E, s, key))
    ensures !Apply(E, s, step).disp.Crashed?
  {
    CrashExact(E, s, step);
    forall key | Checks(E, s, step, key) ensures !Trap(s, key) { ClearIsNoTrap(E, s, step, key); }
  }

  lemma {:induction false} NoCrashAlong(E: Env, s: State, steps: seq<Step>)
    requires Shape(E, s) && !s.disp.Crashed? && Run(E, s, steps)
    requires forall key :: Clear(View(E, s, key)) && OrderlyRun(E, s, steps, key, Lookups)
    ensures !Final(E, s, steps).disp.Crashed?
    decreases |steps|
  {
    if steps != [] {
      StepKeepsShape(E, s, steps[0]);
      NoCrashStep(E, s, steps[0]);
      var s1 := Apply(E, s, steps[0]);
      forall key ensures Clear(View(E, s1, key)) && OrderlyRun(E, s1, steps[1..], key, Lookups) {
        StepKeeps(E, s, steps[0], key, Lookups);
      }
      NoCrashAlong(E, s1, steps[1..]);
    }
  }

  /** So the dispatcher never crashes in a run that respects every key. */
  lemma {:induction false} DispatcherNeverCrashes(E: Env, start: real, steps: seq<Step>)
    requires Run(E, Init(start), steps) && forall key :: OrderlyRun(E, Init(start), steps, key, Lookups)
    ensures !Final(E, Init(start), steps).disp.Crashed?
  {
    forall key ensures Shape(E, Init(start)) && Clear(View(E, Init(start), key)) {
      InitHolds(E, start, key, Lookups);
    }
    InitHolds(E, start, Key(OnChain(0), 0), Lookups);
    NoCrashAlong(E, Init(start), steps);
  }

  // ------------------------------------------------------------------ giving up a run

  /** The retry check finds three counted attempts and an entry: the dispatcher gives the run up. */
  ghost predicate GivesUp(E: Env, s: State, step: Step, key: Key) {
    Checks(E, s, step, key) && AttemptCount(s.tab, key) >= MAX_ATTEMPTS && key in s.tab.pending
  }

  /** The dispatcher waits for the lock all along, to untrack the id over this run. */
  ghost predicate Waits(E: Env, s: State, steps: seq<Step>, key: Key)
    decreases |steps|
  {
    Doomed(s.disp, key) && (steps == [] || (Enabled(E, s, steps[0]) && Waits(E, Apply(E, s, steps[0]), steps[1..], key)))
  }

  /** At some step of the run the dispatcher gave this run up, and has waited ever since. */
  ghost predicate GaveUp(E: Env, s: State, steps: seq<Step>, key: Key)
    decreases |steps|
  {
    steps != [] && Enabled(E, s, steps[0])
    && ((GivesUp(E, s, steps[0], key) && Waits(E, Apply(E, s, steps[0]), steps[1..], key))
        || GaveUp(E, Apply(E, s, steps[0]), steps[1..], key))
  }

  lemma {:induction false} CheckPops(E: Env, s: State, id: UnionId, t2: real, t3: real, asks: bool, key: Key)
    requires Active(E.terms(id), t2) && Active(E.terms(id), t3)
    requires var ms := CheckMoves(E, s, id, t2, t3, asks, key); ms.first.Pop? || ms.second.Pop? || ms.third.Pop?
    ensures key == Key(id, Interval(E.terms(id), t2)) && AttemptCount(s.tab, key) >= MAX_ATTEMPTS && key in s.tab.pending
  {
  }

  ghost predicate HasPop(ms: Moves) { ms.first.Pop? || ms.second.Pop? || ms.third.Pop? }

  lemma {:induction false} TaskNeverPops(E: Env, s: State, step: Step, key: Key)
    requires Shape(E, s) && Enabled(E, s, step) && IsTaskStep(step)
    ensures !HasPop(MovesOf(E, s, step, key))
  {
    if step.TaskStart? {
      assert !HasPop(StartMoves(E, s, step.task, step.t1, step.t2, key));
    } else if step.TaskContainerFails? {
      assert !HasPop(ContainerMoves(E, s, step.task, step.empty, key));
    }
  }

  lemma {:induction false} OthersNeverPop(E: Env, s: State, step: Step, key: Key)
    requires Shape(E, s) && Enabled(E, s, step) && (IsPruneStep(step) || IsWorldStep(step))
    ensures !HasPop(MovesOf(E, s, step, key))
  {
  }

  lemma {:induction false} MovesNeverPop(E: Env, s: State, step: Step, key: Key)
    requires Shape(E, s) && Enabled(E, s, step) && IsMove(step)
    ensures !HasPop(DispatcherMoves(E, s, step, key))
  {
  }

  lemma {:induction false} PopGivesUp(E: Env, s: State, step: Step, key: Key)
    requires Shape(E, s) && Enabled(E, s, step) && IsAnswer(step) && HasPop(DispatcherMoves(E, s, step, key))
    ensures GivesUp(E, s, step, key)
  {
    match step
    case ResponsesAnswer(_, replied, _, t2, t3) =>
      CheckedAt(E, s, s.disp.id, t2, t3);
      CheckPops(E, s, s.disp.id, t2, t3, !replied, key);
    case VisitDelegated(id, t2, t3, _) =>
      CheckedAt(E, s, id, t2, t3);
      CheckPops(E, s, id, t2, t3, true, key);
    case ReceiptAnswer(_, t2, t3, _) =>
      CheckedAt(E, s, s.disp.id, t2, t3);
      CheckPops(E, s, s.disp.id, t2, t3, true, key);
    case _ =>
  }

  lemma {:induction false} OnlyPopDooms(v: RunView, m: Move)
    requires Can(v, m) && !v.doomed && Do(v, m).doomed
    ensures m.Pop?
  {
  }

  lemma {:induction false} DoomingMoves(v: RunView, ms: Moves)
    requires CanAll(v, ms) && !v.doomed && DoAll(v, ms).doomed
    ensures HasPop(ms)
  {
    var v1 := Do(v, ms.first);
    var v2 := Do(v1, ms.second);
    if v1.doomed {
      OnlyPopDooms(v, ms.first);
    } else if v2.doomed {
      OnlyPopDooms(v1, ms.second);
    } else {
      OnlyPopDooms(v2, ms.third);
    }
  }

  /** In any run, a run is given up only by a retry check that finds three counted attempts and
      an entry. */
  lemma {:induction false} DoomedByCheck(E: Env, s: State, step: Step, key: Key)
    requires Shape(E, s) && Enabled(E, s, step) && !Doomed(s.disp, key) && Doomed(Apply(E, s, step).disp, key)
    ensures GivesUp(E, s, step, key)
  {
    StepProjects(E, s, step, key);
    DoomingMoves(View(E, s, key), MovesOf(E, s, step, key));
    PopsGiveUp(E, s, step, key);
  }

  lemma {:induction false} PopsGiveUp(E: Env, s: State, step: Step, key: Key)
    requires Shape(E, s) && Enabled(E, s, step) && HasPop(MovesOf(E, s, step, key))
    ensures GivesUp(E, s, step, key)
  {
    if IsTaskStep(step) {
      TaskNeverPops(E, s, step, key);
    } else if IsPruneStep(step) || IsWorldStep(step) {
      OthersNeverPop(E, s, step, key);
    } else if IsMove(step) {
      MovesNeverPop(E, s, step, key);
    } else {
      PopGivesUp(E, s, step, key);
    }
  }

  lemma {:induction false} DoomedWasGivenUp(E: Env, s: State, steps: seq<Step>, key: Key)
    requires Shape(E, s) && Run(E, s, steps) && Doomed(Final(E, s, steps).disp, key)
    ensures Waits(E, s, steps, key) || GaveUp(E, s, steps, key)
    decreases |steps|
  {
    if steps != [] {
      var s1 := Apply(E, s, steps[0]);
      StepKeepsShape(E, s, steps[0]);
      DoomedWasGivenUp(E, s1, steps[1..], key);
      if Waits(E, s1, steps[1..], key) && !Doomed(s.disp, key) { DoomedByCheck(E, s, steps[0], key); }
    }
  }

  // ---------------------------------------------------------------- why an id is untracked

  /** In seconds: the subscription is active, its final interval has begun, and the count of that
      interval is the redundancy.  That count is the fetched one if the question was about the
      final interval, and otherwise the one stored before. */
  ghost predicate AllResponses(t: Terms, stored: map<int, int>, asked: int, count: int, now: real) {
    now > t.activeAt as real
    && (if t.period == 0 then t.frequency <= 1 else now.Floor >= t.activeAt + (t.frequency - 1) * t.period)
    && (if asked == t.frequency then count
        else if t.frequency in stored then stored[t.frequency] else 0) == t.redundancy
  }

  /** In seconds: the subscription is active, and all of its intervals are over. */
  ghost predicate DeadlinePassed(t: Terms, now: real) {
    now > t.activeAt as real
    && if t.period == 0 then t.frequency == 0 else now.Floor >= t.activeAt + t.frequency * t.period
  }

  /** The counts in the dispatcher's copy of a subscription. */
  function StoredCounts(s: State, id: UnionId): map<int, int> {
    if id in s.copies then s.copies[id].responses else map[]
  }

  lemma {:induction false} DeadlineDecided(t: Terms, now: real)
    ensures PastLastInterval(t, now) <==> DeadlinePassed(t, now)
  {
    if t.period > 0 { PastLastIsDeadline(t, now); }
  }

  /** What a fetched count decides, in seconds and counts. */
  lemma {:induction false} CompletionDecided(E: Env, s: State, count: int)
    requires DispOk(E, s) && s.disp.AskResponses?
    ensures Completed(E.terms(s.disp.id), WithCount(E, s, count), s.now)
       <==> AllResponses(E.terms(s.disp.id), StoredCounts(s, s.disp.id), s.disp.interval, count, s.now)
  {
    var terms, record := E.terms(s.disp.id), WithCount(E, s, count);
    assert record.responses == StoredCounts(s, s.disp.id)[s.disp.interval := count];
    if terms.period > 0 { CompletedExact(terms, record, s.now); } else { CallbackCompletedExact(terms, record, s.now); }
  }

  datatype Reason = Unpayable | CancelledOnChain | FullyAnswered | PastDeadline | ThreeFailures | Unexplained

  /** The evidence a step has for untracking the id. */
  ghost function ReasonFor(E: Env, s: State, step: Step, id: UnionId): Reason
    requires Enabled(E, s, step)
  {
    match step
    case PayAnswer(ok) =>
      if s.disp.id == id && !ok && E.terms(id).paymentAmount > 0 then Unpayable else Unexplained
    case CancelAnswer(cancelled) => if s.disp.id == id && cancelled then CancelledOnChain else Unexplained
    case ResponsesAnswer(count, _, t1, _, _) =>
      if s.disp.id != id then Unexplained
      else if AllResponses(E.terms(id), StoredCounts(s, id), s.disp.interval, count, s.now) then FullyAnswered
      else if DeadlinePassed(E.terms(id), t1) then PastDeadline else Unexplained
    case LockedStop =>
      if s.disp.key.id == id && Exhausted(s.receipts, Sent(s, s.disp.key)) then ThreeFailures else Unexplained
    case TaskStart(task, _, t2) =>
      if s.tasks[task].id == id && DeadlinePassed(E.terms(id), t2) then PastDeadline else Unexplained
    case _ => Unexplained
  }

  /** A step that untracks an id untracks each of its runs in its first or second move. */
  lemma {:induction false} UntrackingMoves(E: Env, s: State, step: Step, key: Key)
    requires Shape(E, s) && Enabled(E, s, step)
    requires key.id in s.tab.tracked && key.id !in Apply(E, s, step).tab.tracked
    ensures var ms := MovesOf(E, s, step, key); ms.first.Untracked? || ms.second.Untracked?
  {
    StepProjects(E, s, step, key);
    UntracksInTwo(View(E, s, key), MovesOf(E, s, step, key));
    ThirdMoves(E, s, step, key);
  }

  lemma {:induction false} UntracksInTwo(v: RunView, ms: Moves)
    requires CanAll(v, ms) && v.tracked && !DoAll(v, ms).tracked
    ensures ms.first.Untracked? || ms.second.Untracked? || ms.third.Untracked?
  {
    if !(ms.first.Untracked? || ms.second.Untracked? || ms.third.Untracked?) {
      KeepsTracked(v, ms.first);
      KeepsTracked(Do(v, ms.first), ms.second);
      KeepsTracked(Do(Do(v, ms.first), ms.second), ms.third);
    }
  }

  lemma {:induction false} ThirdMoves(E: Env, s: State, step: Step, key: Key)
    requires Shape(E, s) && Enabled(E, s, step)
    ensures var m := MovesOf(E, s, step, key).third; m.Stay? || m.Quit? || m.Age?
  {
  }

  /** A task untracks its own id only, and only when a start finds the deadline passed or the
      id is an on-chain callback. */
  lemma {:induction false} TaskUntracks(E: Env, s: State, step: Step, key: Key)
    requires Shape(E, s) && Enabled(E, s, step) && IsTaskStep(step)
    requires var ms := MovesOf(E, s, step, key); ms.first.Untracked? || ms.second.Untracked?
    ensures TaskId(s.tasks[step.task]) == key.id
    ensures step.TaskStart? ==> PastLastInterval(E.terms(key.id), step.t2)
    ensures !step.TaskStart? ==> key.id.OnChain? && IsCallback(E.terms(key.id))
  {
  }

  lemma {:induction false} OthersNeverUntrack(E: Env, s: State, step: Step, key: Key)
    requires Shape(E, s) && Enabled(E, s, step) && (IsPruneStep(step) || IsWorldStep(step))
    ensures var ms := MovesOf(E, s, step, key); !ms.first.Untracked? && !ms.second.Untracked?
  {
  }

  /** Of the steps of tasks and prunes, only a start past the deadline untracks a recurring
      on-chain subscription: simulation, container and delivery failures do not. */
  lemma {:induction false} FailuresKeepRecurring(E: Env, s: State, step: Step, id: UnionId)
    requires Shape(E, s) && Enabled(E, s, step) && (IsTaskStep(step) || IsPruneStep(step) || IsWorldStep(step))
    requires !IsCallback(E.terms(id)) && id in s.tab.tracked && id !in Apply(E, s, step).tab.tracked
    ensures step.TaskStart? && s.tasks[step.task].id == id && PastLastInterval(E.terms(id), step.t2)
  {
    UntrackingMoves(E, s, step, Key(id, 0));
    if IsTaskStep(step) { TaskUntracks(E, s, step, Key(id, 0)); } else { OthersNeverUntrack(E, s, step, Key(id, 0)); }
  }

  /** An on-chain id is untracked by the dispatcher for the reason its answer gives. */
  lemma {:induction false} DispatcherUntracks(E: Env, s: State, step: Step, id: UnionId)
    requires Shape(E, s) && Enabled(E, s, step) && !IsTaskStep(step) && !IsPruneStep(step) && !IsWorldStep(step)
    requires id.OnChain? && id in s.tab.tracked && id !in Apply(E, s, step).tab.tracked
    ensures step.LockedStop? ==> s.disp.key.id == id
    ensures !step.LockedStop? ==> ReasonFor(E, s, step, id) != Unexplained
  {
    UntrackingMoves(E, s, step, Key(id, 0));
    UntrackingAnswers(E, s, step, Key(id, 0));
  }

  lemma {:induction false} UntrackingAnswers(E: Env, s: State, step: Step, key: Key)
    requires Shape(E, s) && Enabled(E, s, step) && !IsTaskStep(step) && !IsPruneStep(step) && !IsWorldStep(step)
    requires key.id.OnChain?
    requires var ms := DispatcherMoves(E, s, step, key); ms.first.Untracked? || ms.second.Untracked?
    ensures step.LockedStop? ==> s.disp.key.id == key.id
    ensures !step.LockedStop? ==> ReasonFor(E, s, step, key.id) != Unexplained
  {
    if step.ResponsesAnswer? {
      CompletionDecided(E, s, step.count);
      DeadlineDecided(E.terms(s.disp.id), step.t1);
    }
  }

  /** The steps that untrack a recurring on-chain subscription, in any run. */
  lemma {:induction false} UntrackingSteps(E: Env, s: State, step: Step, id: UnionId)
    requires Shape(E, s) && Enabled(E, s, step) && id.OnChain? && !IsCallback(E.terms(id))
    requires id in s.tab.tracked && id !in Apply(E, s, step).tab.tracked
    ensures step.LockedStop? ==> s.disp.key.id == id
    ensures !step.LockedStop? ==> ReasonFor(E, s, step, id) != Unexplained
  {
    if IsTaskStep(step) || IsPruneStep(step) || IsWorldStep(step) {
      FailuresKeepRecurring(E, s, step, id);
      DeadlineDecided(E.terms(id), step.t2);
    } else {
      DispatcherUntracks(E, s, step, id);
    }
  }

  /** In any run, a recurring on-chain subscription stops being tracked only because its owner
      cannot pay, it was cancelled on chain, its final interval has been reached with the full
      number of responses recorded, it is past its deadline, or the retry check found three
      counted attempts of one of its runs, with an entry, and the dispatcher then waited for the
      lock. */
  lemma {:induction false} UntrackingHasCause(E: Env, start: real, steps: seq<Step>, s: State, step: Step, id: UnionId)
    requires Run(E, Init(start), steps) && s == Final(E, Init(start), steps)
    requires Enabled(E, s, step) && id.OnChain? && !IsCallback(E.terms(id))
    requires id in s.tab.tracked && id !in Apply(E, s, step).tab.tracked
    ensures ReasonFor(E, s, step, id) != Unexplained
         || (step.LockedStop? && s.disp.key.id == id && GaveUp(E, Init(start), steps, s.disp.key))
  {
    InitHolds(E, start, Key(id, 0), Accounts);
    RunKeepsShape(E, Init(start), steps);
    UntrackingSteps(E, s, step, id);
    if step.LockedStop? {
      DoomedWasGivenUp(E, Init(start), steps, s.disp.key);
      assert !Waits(E, Init(start), steps, s.disp.key);
    }
  }

  /** Those three counted attempts are three transactions of the current period that all failed,
      as long as the run that is given up, and no other, was left without a count, an entry and
      a task whenever its id was tracked anew. */
  lemma {:induction false} UntrackingIsJustified(E: Env, start: real, steps: seq<Step>, s: State, step: Step, id: UnionId)
    requires Run(E, Init(start), steps) && s == Final(E, Init(start), steps)
    requires Enabled(E, s, step) && id.OnChain? && !IsCallback(E.terms(id))
    requires step.LockedStop? ==> Reached(E, start, steps, s, s.disp.key, Accounts)
    requires id in s.tab.tracked && id !in Apply(E, s, step).tab.tracked
    ensures ReasonFor(E, s, step, id) != Unexplained
  {
    InitHolds(E, start, Key(id, 0), Accounts);
    RunKeepsShape(E, Init(start), steps);
    UntrackingSteps(E, s, step, id);
    if step.LockedStop? {
      ReachedKeeps(E, start, steps, s, s.disp.key, Accounts);
      assert Forced(s, s.disp.key) == 0;
    }
  }

  /** While an id is untracked nothing new is done for it: a run nobody executes stays so, no
      transaction is sent for it, its entry does not change except to go, and a task that was
      created before leaves no trace. */
  lemma {:induction false} NothingStartsUntracked(E: Env, s: State, steps: seq<Step>, key: Key)
    requires Shape(E, s) && Run(E, s, steps)
    requires key.id !in s.tab.tracked && forall t :: !Executing(s, t, key)
    requires forall i :: 0 <= i < |steps| && steps[i].TrackMessage? ==> steps[i].id != key.id
    ensures var s' := Final(E, s, steps);
      key.id !in s'.tab.tracked && (forall t :: !Executing(s', t, key)) && PeriodLog(s', key) == PeriodLog(s, key)
      && (SlotOf(s'.tab, key) == SlotOf(s.tab, key) || SlotOf(s'.tab, key).Empty?)
    decreases |steps|
  {
    if steps != [] {
      var s1 := Apply(E, s, steps[0]);
      assert forall i :: 0 <= i < |steps[1..]| ==> steps[1..][i] == steps[i + 1];
      NobodyExecutes(E, s, key);
      UntrackedStep(E, s, steps[0], key);
      NobodyExecutes(E, s1, key);
      NothingStartsUntracked(E, s1, steps[1..], key);
    }
  }

  lemma {:induction false} IdleMoves(v: RunView, ms: Moves)
    requires CanAll(v, ms) && Idle(v) && !ms.first.TrackAnew? && !ms.second.TrackAnew? && !ms.third.TrackAnew?
    ensures Idle(DoAll(v, ms)) && (DoAll(v, ms).slot == v.slot || DoAll(v, ms).slot.Empty?)
  {
    IdleKept(v, ms.first);
    IdleKept(Do(v, ms.first), ms.second);
    IdleKept(Do(Do(v, ms.first), ms.second), ms.third);
  }

  lemma {:induction false} UntrackedStep(E: Env, s: State, step: Step, key: Key)
    requires Shape(E, s) && Enabled(E, s, step) && (step.TrackMessage? ==> step.id != key.id)
    requires key.id !in s.tab.tracked && View(E, s, key).exec == map[]
    ensures var s' := Apply(E, s, step);
      Shape(E, s') && key.id !in s'.tab.tracked && View(E, s', key).exec == map[]
      && PeriodLog(s', key) == PeriodLog(s, key)
      && (SlotOf(s'.tab, key) == SlotOf(s.tab, key) || SlotOf(s'.tab, key).Empty?)
  {
    if step.TaskSends? { ExecutingView(E, s, step.task, key); }
    PeriodLogIsComplete(E, s, step, key);
    UntrackedMoves(E, s, step, key);
  }

  lemma {:induction false} UntrackedMoves(E: Env, s: State, step: Step, key: Key)
    requires Shape(E, s) && Enabled(E, s, step) && (step.TrackMessage? ==> step.id != key.id)
    requires Idle(View(E, s, key))
    ensures var s' := Apply(E, s, step);
      Shape(E, s') && Idle(View(E, s', key)) && (SlotOf(s'.tab, key) == SlotOf(s.tab, key) || SlotOf(s'.tab, key).Empty?)
  {
    StepProjects(E, s, step, key);
    LogMoves(E, s, step, key);
    IdleMoves(View(E, s, key), MovesOf(E, s, step, key));
  }

  // -------------------------------------------------------------- when a run is orderly

  /** An id that was never tracked has left nothing anywhere, so tracking it is orderly at
      every level, for each of its runs. */
  lemma {:induction false} FirstTrackingIsOrderly(E: Env, s: State, key: Key, level: Level)
    requires Shape(E, s) && key.id !in s.ever
    ensures MayTrackAnew(level, View(E, s, key))
  {
    var v := View(E, s, key);
    forall t ensures t !in v.exec { ExecutingView(E, s, t, key); }
    assert v.exec == map[];
    assert v.listing.Unlisted? by {
      if s.lock.Pruning? {
        assert key in s.lock.todo ==> ListedOk(s, key);
        assert key in s.lock.failed ==> Failed(s, key);
      }
    }
    assert !Doomed(s.disp, key);
  }

  /** No id is tracked again once untracked, and no delegated message forces an executing run. */
  ghost predicate SinglePeriodRun(E: Env, s: State, steps: seq<Step>)
    decreases |steps|
  {
    steps == [] ||
    (Enabled(E, s, steps[0])
     && (steps[0].TrackMessage? ==> steps[0].id in s.tab.tracked || steps[0].id !in s.ever)
     && (steps[0].EvictMessage? ==> forall t :: !Executing(s, t, steps[0].key))
     && SinglePeriodRun(E, Apply(E, s, steps[0]), steps[1..]))
  }

  lemma {:induction false} SinglePeriodStepIsOrderly(E: Env, s: State, step: Step, key: Key, level: Level)
    requires Shape(E, s) && Enabled(E, s, step)
    requires step.TrackMessage? ==> step.id in s.tab.tracked || step.id !in s.ever
    requires step.EvictMessage? ==> forall t :: !Executing(s, t, step.key)
    ensures Orderly(E, s, step, key, level)
  {
    if step.TrackMessage? && step.id == key.id && step.id !in s.tab.tracked {
      FirstTrackingIsOrderly(E, s, key, level);
    }
    if step.EvictMessage? && step.key == key { NobodyExecutes(E, s, key); }
  }

  /** So all guarantees hold, for every run, when ids are tracked for one period only. */
  lemma {:induction false} SinglePeriodRunIsOrderly(E: Env, s: State, steps: seq<Step>, key: Key, level: Level)
    requires Shape(E, s) && SinglePeriodRun(E, s, steps)
    ensures OrderlyRun(E, s, steps, key, level)
    decreases |steps|
  {
    if steps != [] {
      SinglePeriodStepIsOrderly(E, s, steps[0], key, level);
      StepKeepsShape(E, s, steps[0]);
      SinglePeriodRunIsOrderly(E, Apply(E, s, steps[0]), steps[1..], key, level);
    }
  }
}
