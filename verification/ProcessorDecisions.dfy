/** What the chain processor decides, step by step, in seconds, counts and dictionary entries:
    exactly when an id is untracked, a question asked, a processing task created, and an attempt
    count cleared. */
module ProcessorDecisions {
  import opened Subscriptions
  import opened ProcessorTables
  import opened ProcessorProtocol
  import opened ProcessorShape
  import opened ProcessorRuns
  import opened ProcessorProjection
  import opened ProcessorTheorems

  // ----------------------------------------------------------------- when an id is untracked

  ghost predicate DispatcherStops(E: Env, s: State, step: Step, id: UnionId)
    requires Enabled(E, s, step)
  {
    match step
    case PayAnswer(ok) => s.disp.id == id && !ok
    case CancelAnswer(cancelled) => s.disp.id == id && cancelled
    case ResponsesAnswer(count, _, t1, _, _) =>
      s.disp.id == id
      && (AllResponses(E.terms(id), StoredCounts(s, id), s.disp.interval, count, s.now) || DeadlinePassed(E.terms(id), t1))
    case ReceiptAnswer(ok, _, _, _) => s.disp.id == id && ok
    case LockedStop => s.disp.key.id == id
    case _ => false
  }

  /** A task stops its own id: a created one that finds the deadline passed, and one of an on-chain
      callback whose simulation, container or delivery fails.  An empty result list or a missing
      entry ends the task of a failed container without that. */
  ghost predicate TaskStops(E: Env, s: State, step: Step, id: UnionId)
    requires Enabled(E, s, step)
  {
    match step
    case TaskStart(task, _, t2) => s.tasks[task].id == id && DeadlinePassed(E.terms(id), t2)
    case TaskSimulationFails(task) => s.tasks[task].key.id == id && id.OnChain?
    case TaskContainerFails(task, empty) =>
      s.tasks[task].key.id == id && id.OnChain? && E.terms(id).period == 0 && !empty && s.tasks[task].key in s.tab.pending
    case TaskDeliveryFails(task) => s.tasks[task].key.id == id && id.OnChain? && E.terms(id).period == 0
    case _ => false
  }

  lemma {:induction false} ResponsesStop(E: Env, s: State, count: int, replied: bool, t1: real, t2: real, t3: real, id: UnionId)
    requires Shape(E, s) && Enabled(E, s, ResponsesAnswer(count, replied, t1, t2, t3)) && id in s.tab.tracked
    ensures id !in ApplyResponses(E, s, count, replied, t1, t2, t3).tab.tracked
       <==> DispatcherStops(E, s, ResponsesAnswer(count, replied, t1, t2, t3), id)
  {
    CompletionDecided(E, s, count);
    DeadlineDecided(E.terms(s.disp.id), t1);
    if !Completed(E.terms(s.disp.id), WithCount(E, s, count), s.now) {
      DeadlineStops(E, s, s.disp.todo, s.disp.id, replied, t1, t2, t3, id);
    }
  }

  /** Nothing but the dispatcher's place, the clock, the tasks and the attempts changes. */
  ghost predicate KeepsIds(s: State, s': State) {
    s'.tab.tracked == s.tab.tracked && s'.records == s.records && s'.copies == s.copies
  }

  lemma {:induction false} BlockedKeepsIds(s: State, phase: ProcessorProtocol.Phase, todo: set<UnionId>, run: Key, replied: bool, task: nat)
    requires run.id !in s.tab.tracked || run in s.tab.pending
    ensures KeepsIds(s, CheckPending(s, phase, todo, run, replied, task))
  {
  }

  lemma {:induction false} FreeKeepsIds(s: State, todo: set<UnionId>, run: Key, replied: bool)
    requires run.id in s.tab.tracked && run !in s.tab.pending
    ensures KeepsIds(s, CheckPending(s, OnChainLoop, todo, run, replied, 0))
  {
  }

  lemma {:induction false} CreationKeepsIds(s: State, todo: set<UnionId>, run: Key, replied: bool, task: nat)
    requires run.id in s.tab.tracked && run !in s.tab.pending
    ensures KeepsIds(s, CheckPending(s, DelegatedLoop, todo, run, replied, task))
  {
  }

  lemma {:induction false} PendingKeepsIds(
    s: State, phase: ProcessorProtocol.Phase, todo: set<UnionId>, run: Key, replied: bool, task: nat)
    requires phase == OnChainLoop ==> task == 0
    ensures KeepsIds(s, CheckPending(s, phase, todo, run, replied, task))
  {
    if run.id !in s.tab.tracked || run in s.tab.pending {
      BlockedKeepsIds(s, phase, todo, run, replied, task);
    } else if phase == OnChainLoop {
      FreeKeepsIds(s, todo, run, replied);
    } else {
      CreationKeepsIds(s, todo, run, replied, task);
    }
  }

  /** Below the retry limit the pending check decides. */
  lemma {:induction false} BelowLimit(
    E: Env, s: State, phase: ProcessorProtocol.Phase, todo: set<UnionId>, id: UnionId, t2: real, t3: real, replied: bool, task: nat)
    requires Active(E.terms(id), t2) && Active(E.terms(id), t3)
    requires AttemptCount(s.tab, Key(id, Interval(E.terms(id), t2))) < MAX_ATTEMPTS
    ensures CheckRetriesAndPending(E, s, phase, todo, id, t2, t3, replied, task)
         == CheckPending(s.(now := t3), phase, todo, Key(id, Interval(E.terms(id), t3)), replied, task)
  {
  }

  /** At the limit the dispatcher waits for the lock, or crashes without an entry. */
  lemma {:induction false} AtLimit(
    E: Env, s: State, phase: ProcessorProtocol.Phase, todo: set<UnionId>, id: UnionId, t2: real, t3: real, replied: bool, task: nat)
    requires Active(E.terms(id), t2) && Active(E.terms(id), t3)
    requires var limit := Key(id, Interval(E.terms(id), t2)); AttemptCount(s.tab, limit) >= MAX_ATTEMPTS && limit in s.tab.pending
    ensures var limit := Key(id, Interval(E.terms(id), t2));
      CheckRetriesAndPending(E, s, phase, todo, id, t2, t3, replied, task)
        == s.(now := t3, tab := PopAttempts(s.tab, limit), disp := AwaitLock(phase, todo, limit))
  {
  }

  lemma {:induction false} AtLimitCrashes(
    E: Env, s: State, phase: ProcessorProtocol.Phase, todo: set<UnionId>, id: UnionId, t2: real, t3: real, replied: bool, task: nat)
    requires Active(E.terms(id), t2) && Active(E.terms(id), t3)
    requires var limit := Key(id, Interval(E.terms(id), t2)); AttemptCount(s.tab, limit) >= MAX_ATTEMPTS && limit !in s.tab.pending
    ensures CheckRetriesAndPending(E, s, phase, todo, id, t2, t3, replied, task) == s.(now := t3, disp := Crashed)
  {
  }

  lemma {:induction false} InactiveCrashes(
    E: Env, s: State, phase: ProcessorProtocol.Phase, todo: set<UnionId>, id: UnionId, t2: real, t3: real, replied: bool, task: nat)
    requires !Active(E.terms(id), t2) || !Active(E.terms(id), t3)
    ensures CheckRetriesAndPending(E, s, phase, todo, id, t2, t3, replied, task) == s.(now := t3, disp := Crashed)
  {
  }

  lemma {:induction false} ChecksKeepIds(
    E: Env, s: State, phase: ProcessorProtocol.Phase, todo: set<UnionId>, id: UnionId, t2: real, t3: real, replied: bool, task: nat)
    requires phase == OnChainLoop ==> task == 0
    ensures KeepsIds(s, CheckRetriesAndPending(E, s, phase, todo, id, t2, t3, replied, task))
  {
    if !Active(E.terms(id), t2) || !Active(E.terms(id), t3) {
      InactiveCrashes(E, s, phase, todo, id, t2, t3, replied, task);
    } else {
      var limit := Key(id, Interval(E.terms(id), t2));
      if AttemptCount(s.tab, limit) < MAX_ATTEMPTS {
        BelowLimit(E, s, phase, todo, id, t2, t3, replied, task);
        PendingKeepsIds(s.(now := t3), phase, todo, Key(id, Interval(E.terms(id), t3)), replied, task);
      } else if limit in s.tab.pending {
        AtLimit(E, s, phase, todo, id, t2, t3, replied, task);
      } else {
        AtLimitCrashes(E, s, phase, todo, id, t2, t3, replied, task);
      }
    }
  }

  lemma {:induction false} DeadlineHolds(
    E: Env, s: State, todo: set<UnionId>, own: UnionId, replied: bool, t1: real, t2: real, t3: real)
    requires own in s.tab.tracked && !PastLastInterval(E.terms(own), t1)
    ensures KeepsIds(s, CheckDeadline(E, s, todo, own, replied, t1, t2, t3))
  {
    ChecksKeepIds(E, s, OnChainLoop, todo, own, t2, t3, replied, 0);
  }

  lemma {:induction false} DeadlineUntracks(
    E: Env, s: State, todo: set<UnionId>, own: UnionId, replied: bool, t1: real, t2: real, t3: real)
    requires own in s.tab.tracked && PastLastInterval(E.terms(own), t1)
    ensures CheckDeadline(E, s, todo, own, replied, t1, t2, t3)
         == s.(now := t1, tab := Untrack(s.tab, own, false), disp := Loop(OnChainLoop, todo))
  {
  }

  lemma {:induction false} DeadlineSkips(
    E: Env, s: State, todo: set<UnionId>, own: UnionId, replied: bool, t1: real, t2: real, t3: real)
    requires own !in s.tab.tracked
    ensures KeepsIds(s, CheckDeadline(E, s, todo, own, replied, t1, t2, t3))
  {
  }

  lemma {:induction false} DeadlineStops(
    E: Env, s: State, todo: set<UnionId>, own: UnionId, replied: bool, t1: real, t2: real, t3: real, id: UnionId)
    requires own.OnChain? && id in s.tab.tracked
    ensures id !in CheckDeadline(E, s, todo, own, replied, t1, t2, t3).tab.tracked <==> own == id && PastLastInterval(E.terms(id), t1)
  {
    if own !in s.tab.tracked {
      DeadlineSkips(E, s, todo, own, replied, t1, t2, t3);
    } else if PastLastInterval(E.terms(own), t1) {
      DeadlineUntracks(E, s, todo, own, replied, t1, t2, t3);
    } else {
      DeadlineHolds(E, s, todo, own, replied, t1, t2, t3);
    }
  }

  lemma {:induction false} VisitSkips(E: Env, s: State, id: UnionId, t2: real, t3: real, task: nat)
    requires s.disp.Loop? && (!Active(E.terms(id), s.now) || id !in s.tab.tracked)
    ensures KeepsIds(s, ApplyVisitDelegated(E, s, id, t2, t3, task))
  {
  }

  lemma {:induction false} VisitAsksReceipt(E: Env, s: State, id: UnionId, t2: real, t3: real, task: nat)
    requires s.disp.Loop? && Active(E.terms(id), s.now) && id in s.tab.tracked
    requires var run := Key(id, Interval(E.terms(id), s.now)); run in s.tab.pending && s.tab.pending[run].Tx?
    ensures KeepsIds(s, ApplyVisitDelegated(E, s, id, t2, t3, task))
  {
  }

  lemma {:induction false} VisitChecks(E: Env, s: State, id: UnionId, t2: real, t3: real, task: nat)
    requires s.disp.Loop? && Active(E.terms(id), s.now) && id in s.tab.tracked
    requires var run := Key(id, Interval(E.terms(id), s.now)); run in s.tab.pending ==> s.tab.pending[run].Blocked?
    ensures ApplyVisitDelegated(E, s, id, t2, t3, task)
         == CheckRetriesAndPending(E, s, DelegatedLoop, s.disp.todo - {id}, id, t2, t3, false, task)
  {
  }

  lemma {:induction false} VisitKeepsIds(E: Env, s: State, id: UnionId, t2: real, t3: real, task: nat)
    requires s.disp.Loop?
    ensures KeepsIds(s, ApplyVisitDelegated(E, s, id, t2, t3, task))
  {
    if !Active(E.terms(id), s.now) || id !in s.tab.tracked {
      VisitSkips(E, s, id, t2, t3, task);
    } else {
      var run := Key(id, Interval(E.terms(id), s.now));
      if run in s.tab.pending && s.tab.pending[run].Tx? {
        VisitAsksReceipt(E, s, id, t2, t3, task);
      } else {
        VisitChecks(E, s, id, t2, t3, task);
        ChecksKeepIds(E, s, DelegatedLoop, s.disp.todo - {id}, id, t2, t3, false, task);
      }
    }
  }

  lemma {:induction false} ReceiptStops(E: Env, s: State, ok: bool, t2: real, t3: real, task: nat, id: UnionId)
    requires DispOk(E, s) && Enabled(E, s, ReceiptAnswer(ok, t2, t3, task)) && id in s.tab.tracked
    ensures id !in Apply(E, s, ReceiptAnswer(ok, t2, t3, task)).tab.tracked <==> s.disp.id == id && ok
  {
    if !ok { ChecksKeepIds(E, s, DelegatedLoop, s.disp.todo, s.disp.id, t2, t3, false, task); }
  }

  lemma {:induction false} DelegatedStop(E: Env, s: State, step: Step, id: UnionId)
    requires Shape(E, s) && Enabled(E, s, step) && (step.VisitDelegated? || step.ReceiptAnswer?) && id in s.tab.tracked
    ensures id !in Apply(E, s, step).tab.tracked <==> DispatcherStops(E, s, step, id)
  {
    match step
    case VisitDelegated(own, t2, t3, task) => VisitKeepsIds(E, s, own, t2, t3, task);
    case ReceiptAnswer(ok, t2, t3, task) => ReceiptStops(E, s, ok, t2, t3, task, id);
  }

  lemma {:induction false} PayStops(E: Env, s: State, ok: bool, id: UnionId)
    requires DispOk(E, s) && s.disp.AskPay? && id in s.tab.tracked
    ensures id !in Apply(E, s, PayAnswer(ok)).tab.tracked <==> s.disp.id == id && !ok
  {
  }

  lemma {:induction false} CancelStops(E: Env, s: State, cancelled: bool, id: UnionId)
    requires DispOk(E, s) && s.disp.AskCancelled? && id in s.tab.tracked
    ensures id !in Apply(E, s, CancelAnswer(cancelled)).tab.tracked <==> s.disp.id == id && cancelled
  {
  }

  lemma {:induction false} LockedStops(E: Env, s: State, id: UnionId)
    requires DispOk(E, s) && Enabled(E, s, LockedStop) && id in s.tab.tracked
    ensures id !in Apply(E, s, LockedStop).tab.tracked <==> s.disp.key.id == id
  {
  }

  lemma {:induction false} VerdictStops(E: Env, s: State, step: Step, id: UnionId)
    requires Shape(E, s) && Enabled(E, s, step) && id in s.tab.tracked
    requires step.PayAnswer? || step.CancelAnswer? || step.RespondedAnswer? || step.LockedStop?
    ensures id !in Apply(E, s, step).tab.tracked <==> DispatcherStops(E, s, step, id)
  {
    match step
    case PayAnswer(ok) => PayStops(E, s, ok, id);
    case CancelAnswer(cancelled) => CancelStops(E, s, cancelled, id);
    case RespondedAnswer(_, _) =>
    case LockedStop => LockedStops(E, s, id);
  }

  lemma {:induction false} StartUntracks(E: Env, s: State, task: nat, t1: real, t2: real)
    requires Enabled(E, s, TaskStart(task, t1, t2)) && Active(E.terms(s.tasks[task].id), t1)
    requires s.tasks[task].id in s.tab.tracked && PastLastInterval(E.terms(s.tasks[task].id), t2)
    ensures ApplyStart(E, s, task, t1, t2).tab == Untrack(s.tab, s.tasks[task].id, s.tasks[task].id.Delegated?)
  {
  }

  lemma {:induction false} StartKeeps(E: Env, s: State, task: nat, t1: real, t2: real)
    requires Enabled(E, s, TaskStart(task, t1, t2)) && Active(E.terms(s.tasks[task].id), t1)
    requires s.tasks[task].id !in s.tab.tracked || !PastLastInterval(E.terms(s.tasks[task].id), t2)
    ensures ApplyStart(E, s, task, t1, t2).tab.tracked == s.tab.tracked
  {
  }

  lemma {:induction false} StartStops(E: Env, s: State, task: nat, t1: real, t2: real, id: UnionId)
    requires Shape(E, s) && Enabled(E, s, TaskStart(task, t1, t2)) && id in s.tab.tracked
    ensures id !in ApplyStart(E, s, task, t1, t2).tab.tracked <==> s.tasks[task].id == id && DeadlinePassed(E.terms(id), t2)
  {
    var own := s.tasks[task].id;
    DeadlineDecided(E.terms(own), t2);
    IntervalMonotone(E.terms(own), s.now, t1);
    if own in s.tab.tracked && PastLastInterval(E.terms(own), t2) {
      StartUntracks(E, s, task, t1, t2);
    } else {
      StartKeeps(E, s, task, t1, t2);
    }
  }

  lemma {:induction false} ContainerKeeps(E: Env, s: State, task: nat, empty: bool)
    requires Enabled(E, s, TaskContainerFails(task, empty))
    requires s.tasks[task].key !in s.tab.pending || E.terms(s.tasks[task].key.id).period > 0 || empty
    ensures ApplyContainerFailure(E, s, task, empty).tab.tracked == s.tab.tracked
  {
  }

  lemma {:induction false} ContainerUntracks(E: Env, s: State, task: nat)
    requires Enabled(E, s, TaskContainerFails(task, false))
    requires s.tasks[task].key in s.tab.pending && E.terms(s.tasks[task].key.id).period == 0
    ensures ApplyContainerFailure(E, s, task, false).tab == StopOwn(Release(s.tab, s.tasks[task].key), s.tasks[task].key.id)
  {
  }

  lemma {:induction false} ContainerStops(E: Env, s: State, task: nat, empty: bool, id: UnionId)
    requires Shape(E, s) && Enabled(E, s, TaskContainerFails(task, empty)) && id in s.tab.tracked
    ensures id !in ApplyContainerFailure(E, s, task, empty).tab.tracked <==> TaskStops(E, s, TaskContainerFails(task, empty), id)
  {
    var own := s.tasks[task].key;
    if own !in s.tab.pending || E.terms(own.id).period > 0 || empty {
      ContainerKeeps(E, s, task, empty);
    } else {
      ContainerUntracks(E, s, task);
      StopsOwn(E, s, Release(s.tab, own), own.id, id);
    }
  }

  /** A task that stops its own id untracks it if it is an on-chain one, and no other id. */
  lemma {:induction false} StopsOwn(E: Env, s: State, tab: Tables, own: UnionId, id: UnionId)
    requires Shape(E, s) && tab.tracked == s.tab.tracked && id in s.tab.tracked
    ensures id !in StopOwn(tab, own).tracked <==> own == id && id.OnChain?
  {
    assert id in s.ever;
  }

  lemma {:induction false} SimulationStops(E: Env, s: State, task: nat, id: UnionId)
    requires Shape(E, s) && Enabled(E, s, TaskSimulationFails(task)) && id in s.tab.tracked
    ensures id !in Apply(E, s, TaskSimulationFails(task)).tab.tracked <==> s.tasks[task].key.id == id && id.OnChain?
  {
    StopsOwn(E, s, s.tab, s.tasks[task].key.id, id);
  }

  lemma {:induction false} DeliveryStops(E: Env, s: State, task: nat, id: UnionId)
    requires Shape(E, s) && Enabled(E, s, TaskDeliveryFails(task)) && id in s.tab.tracked
    ensures id !in Apply(E, s, TaskDeliveryFails(task)).tab.tracked
       <==> s.tasks[task].key.id == id && id.OnChain? && E.terms(id).period == 0
  {
    StopsOwn(E, s, s.tab, s.tasks[task].key.id, id);
  }

  lemma {:induction false} FailureStops(E: Env, s: State, step: Step, id: UnionId)
    requires Shape(E, s) && Enabled(E, s, step) && IsTaskStep(step) && id in s.tab.tracked
    ensures id !in Apply(E, s, step).tab.tracked <==> TaskStops(E, s, step, id)
  {
    match step
    case TaskStart(task, t1, t2) => StartStops(E, s, task, t1, t2, id);
    case TaskSimulationFails(task) => SimulationStops(E, s, task, id);
    case TaskContainerFails(task, empty) => ContainerStops(E, s, task, empty, id);
    case TaskSends(_, _) =>
    case TaskDeliveryFails(task) => DeliveryStops(E, s, task, id);
    case TaskRaises(_) =>
    case TaskFinishes(_) =>
  }

  lemma {:induction false} ReceiptNeverStops(E: Env, s: State, key: Key, found: bool)
    requires Enabled(E, s, PruneReceipt(key, found))
    ensures Apply(E, s, PruneReceipt(key, found)).tab.tracked == s.tab.tracked
  {
    ReceiptClearsExactly(E, s, key, found, key);
  }

  lemma {:induction false} FinishNeverStops(E: Env, s: State)
    requires Enabled(E, s, PruneFinish)
    ensures Apply(E, s, PruneFinish).tab.tracked == s.tab.tracked
  {
    EvictAllFrame(s.tab, s.lock.failed);
  }

  lemma {:induction false} PrunesNeverStop(E: Env, s: State, step: Step)
    requires Enabled(E, s, step) && IsPruneStep(step)
    ensures Apply(E, s, step).tab.tracked == s.tab.tracked
  {
    match step
    case PruneAcquire =>
    case PruneReceipt(key, found) => ReceiptNeverStops(E, s, key, found);
    case PruneFinish => FinishNeverStops(E, s);
    case PruneRaises =>
  }

  lemma {:induction false} MessagesNeverStop(E: Env, s: State, step: Step)
    requires Enabled(E, s, step) && IsWorldStep(step)
    ensures s.tab.tracked <= Apply(E, s, step).tab.tracked
  {
    match step
    case Tick(_) =>
    case Mine(_, _) =>
    case TrackMessage(id, record) => assert ApplyTrack(s, id, record).tab == Track(s.tab, id);
    case EvictMessage(_) =>
  }

  lemma {:induction false} OthersNeverStop(E: Env, s: State, step: Step, id: UnionId)
    requires Enabled(E, s, step) && id in s.tab.tracked
    requires IsPruneStep(step) || IsWorldStep(step) || (IsMove(step) && !step.LockedStop?)
    ensures id in Apply(E, s, step).tab.tracked
  {
    if IsPruneStep(step) {
      PrunesNeverStop(E, s, step);
    } else if IsWorldStep(step) {
      MessagesNeverStop(E, s, step);
    } else {
      assert Apply(E, s, step).tab == s.tab;
    }
  }

  /** In any run a step untracks a tracked id if and only if it is one of these verdicts. */
  lemma {:induction false} UntrackedExactly(E: Env, s: State, step: Step, id: UnionId)
    requires Shape(E, s) && Enabled(E, s, step) && id in s.tab.tracked
    ensures id !in Apply(E, s, step).tab.tracked <==> DispatcherStops(E, s, step, id) || TaskStops(E, s, step, id)
  {
    if IsTaskStep(step) {
      FailureStops(E, s, step, id);
    } else if step.ResponsesAnswer? {
      ResponsesStop(E, s, step.count, step.replied, step.t1, step.t2, step.t3, id);
    } else if step.VisitDelegated? || step.ReceiptAnswer? {
      DelegatedStop(E, s, step, id);
    } else if IsAnswer(step) || step.LockedStop? {
      VerdictStops(E, s, step, id);
    } else {
      OthersNeverStop(E, s, step, id);
    }
  }

  /** A fetched response count decides: asked about the final interval of an on-chain id, the
      dispatcher untracks it if the count is the redundancy; with another count it stays tracked
      unless its deadline has passed.  Asked about a later interval, the count of the final
      interval that its copy holds decides in the same way. */
  lemma {:induction false} ResponseCountDecides(E: Env, s: State, count: int, replied: bool, t1: real, t2: real, t3: real)
    requires Shape(E, s) && Enabled(E, s, ResponsesAnswer(count, replied, t1, t2, t3)) && s.disp.id in s.tab.tracked
    ensures var t, id := E.terms(s.disp.id), s.disp.id;
      var s' := Apply(E, s, ResponsesAnswer(count, replied, t1, t2, t3));
      var final := if s.disp.interval == t.frequency then count
        else if id in s.copies && t.frequency in s.copies[id].responses then s.copies[id].responses[t.frequency] else 0;
      s.disp.interval >= t.frequency ==>
        (final == t.redundancy ==> id !in s'.tab.tracked)
        && (final != t.redundancy ==> (id !in s'.tab.tracked <==> DeadlinePassed(t, t1)))
  {
    ResponsesStop(E, s, count, replied, t1, t2, t3, s.disp.id);
    if s.disp.interval >= E.terms(s.disp.id).frequency { FinalReached(E, s); }
    assert Apply(E, s, ResponsesAnswer(count, replied, t1, t2, t3)) == ApplyResponses(E, s, count, replied, t1, t2, t3);
  }

  /** A question about the final interval or a later one is asked once the final one has begun. */
  lemma {:induction false} FinalReached(E: Env, s: State)
    requires DispOk(E, s) && s.disp.AskResponses? && s.disp.interval >= E.terms(s.disp.id).frequency
    ensures var t := E.terms(s.disp.id);
      s.now > t.activeAt as real
      && if t.period == 0 then t.frequency <= 1 else s.now.Floor >= t.activeAt + (t.frequency - 1) * t.period
  {
    var t := E.terms(s.disp.id);
    if t.period > 0 { IntervalReached(t, s.now, t.frequency); }
  }

  // ---------------------------------------------------------- questions and created tasks

  /** The owner is asked to pay exactly for a subscription that offers a payment. */
  lemma {:induction false} VisitAsks(E: Env, s: State, id: UnionId)
    requires Enabled(E, s, Visit(id)) && id in s.tab.tracked
    ensures var d := Apply(E, s, Visit(id)).disp;
      (d.AskPay? <==> E.terms(id).paymentAmount > 0) && (!d.AskPay? ==> d.AskCancelled?)
  {
  }

  lemma {:induction false} NotCancelledAsks(E: Env, s: State)
    requires Enabled(E, s, CancelAnswer(false)) && Active(E.terms(s.disp.id), s.now)
    ensures Apply(E, s, CancelAnswer(false)).disp
         == AskResponses(s.disp.todo, s.disp.id, Interval(E.terms(s.disp.id), s.now))
  {
  }

  /** The chain is asked for the response count exactly of a subscription that is not cancelled and
      active, about the interval whose window of seconds holds the clock; a callback has interval
      1 alone. */
  lemma {:induction false} CountIsAskedExactly(E: Env, s: State, cancelled: bool)
    requires Enabled(E, s, CancelAnswer(cancelled))
    ensures var t, d := E.terms(s.disp.id), Apply(E, s, CancelAnswer(cancelled)).disp;
      (d.AskResponses? <==> !cancelled && s.now > t.activeAt as real)
      && (d.AskResponses? ==>
            d.id == s.disp.id && d.todo == s.disp.todo
            && IsRunAt(t, d.interval, s.now))
  {
    var t := E.terms(s.disp.id);
    if !cancelled && Active(t, s.now) {
      NotCancelledAsks(E, s);
      IntervalIsRun(t, s.now, Interval(t, s.now));
    }
  }

  /** The retry limit and the pending check let a run through. */
  ghost predicate PassesChecks(E: Env, s: State, id: UnionId, t2: real, t3: real)
    requires Active(E.terms(id), t2) && Active(E.terms(id), t3)
  {
    var limit, run := Key(id, Interval(E.terms(id), t2)), Key(id, Interval(E.terms(id), t3));
    (limit in s.tab.attempts ==> s.tab.attempts[limit] < 3) && run !in s.tab.pending
  }

  lemma {:induction false} LimitStopsAsking(E: Env, s: State, todo: set<UnionId>, id: UnionId, t2: real, t3: real, replied: bool)
    requires Active(E.terms(id), t2) && Active(E.terms(id), t3)
    requires AttemptCount(s.tab, Key(id, Interval(E.terms(id), t2))) >= MAX_ATTEMPTS
    ensures !CheckRetriesAndPending(E, s, OnChainLoop, todo, id, t2, t3, replied, 0).disp.AskResponded?
  {
    if Key(id, Interval(E.terms(id), t2)) in s.tab.pending {
      AtLimit(E, s, OnChainLoop, todo, id, t2, t3, replied, 0);
    } else {
      AtLimitCrashes(E, s, OnChainLoop, todo, id, t2, t3, replied, 0);
    }
  }

  lemma {:induction false} CheckAsks(E: Env, s: State, todo: set<UnionId>, id: UnionId, t2: real, t3: real, replied: bool)
    requires Active(E.terms(id), t2) && Active(E.terms(id), t3) && id in s.tab.tracked
    ensures var s' := CheckRetriesAndPending(E, s, OnChainLoop, todo, id, t2, t3, replied, 0);
      s'.disp.AskResponded? == Asks(s', id, Interval(E.terms(id), t3)) == (PassesChecks(E, s, id, t2, t3) && !replied)
  {
    if AttemptCount(s.tab, Key(id, Interval(E.terms(id), t2))) < MAX_ATTEMPTS {
      BelowLimit(E, s, OnChainLoop, todo, id, t2, t3, replied, 0);
      PendingAsks(s.(now := t3), todo, Key(id, Interval(E.terms(id), t3)), replied);
    } else {
      LimitStopsAsking(E, s, todo, id, t2, t3, replied);
    }
  }

  /** The dispatcher asks the chain whether the node has responded to the run. */
  ghost predicate Asks(s: State, id: UnionId, interval: int) {
    s.disp.AskResponded? && s.disp.id == id && s.disp.checked == interval
  }

  lemma {:induction false} PendingAsksNothing(s: State, todo: set<UnionId>, run: Key, replied: bool)
    requires run.id in s.tab.tracked && (run in s.tab.pending || replied)
    ensures CheckPending(s, OnChainLoop, todo, run, replied, 0).disp == Loop(OnChainLoop, todo)
  {
  }

  lemma {:induction false} FreeAsks(s: State, todo: set<UnionId>, run: Key)
    requires run.id in s.tab.tracked && run !in s.tab.pending
    ensures CheckPending(s, OnChainLoop, todo, run, false, 0).disp == AskResponded(todo, run.id, run.interval)
  {
  }

  lemma {:induction false} PendingAsks(s: State, todo: set<UnionId>, run: Key, replied: bool)
    requires run.id in s.tab.tracked
    ensures var s' := CheckPending(s, OnChainLoop, todo, run, replied, 0);
      s'.disp.AskResponded? == Asks(s', run.id, run.interval) == (run !in s.tab.pending && !replied)
  {
    if run in s.tab.pending || replied {
      PendingAsksNothing(s, todo, run, replied);
    } else {
      FreeAsks(s, todo, run);
    }
  }

  lemma {:induction false} DeadlineAsks(E: Env, s: State, todo: set<UnionId>, id: UnionId, replied: bool, t1: real, t2: real, t3: real)
    requires Active(E.terms(id), t2) && Active(E.terms(id), t3)
    ensures var s' := CheckDeadline(E, s, todo, id, replied, t1, t2, t3);
      s'.disp.AskResponded? == Asks(s', id, Interval(E.terms(id), t3))
      == (id in s.tab.tracked && !PastLastInterval(E.terms(id), t1) && PassesChecks(E, s, id, t2, t3) && !replied)
  {
    if id in s.tab.tracked && !PastLastInterval(E.terms(id), t1) { CheckAsks(E, s, todo, id, t2, t3, replied); }
  }

  /** The chain is asked whether the node has responded exactly when the id is tracked and goes on,
      its run has fewer than three attempts and is not pending, and no reply is remembered. */
  lemma {:induction false} RespondedIsAskedExactly(E: Env, s: State, count: int, replied: bool, t1: real, t2: real, t3: real)
    requires Shape(E, s) && Enabled(E, s, ResponsesAnswer(count, replied, t1, t2, t3))
    ensures Active(E.terms(s.disp.id), t2) && Active(E.terms(s.disp.id), t3)
    ensures var id, s' := s.disp.id, Apply(E, s, ResponsesAnswer(count, replied, t1, t2, t3));
      s'.disp.AskResponded? == Asks(s', id, Interval(E.terms(id), t3))
      == (id in s.tab.tracked && !AllResponses(E.terms(id), StoredCounts(s, id), s.disp.interval, count, s.now)
          && !DeadlinePassed(E.terms(id), t1) && PassesChecks(E, s, id, t2, t3) && !replied)
  {
    CheckedAt(E, s, s.disp.id, t2, t3);
    CompletionDecided(E, s, count);
    DeadlineDecided(E.terms(s.disp.id), t1);
    DeadlineAsks(E, s, s.disp.todo, s.disp.id, replied, t1, t2, t3);
    assert Apply(E, s, ResponsesAnswer(count, replied, t1, t2, t3)) == ApplyResponses(E, s, count, replied, t1, t2, t3);
  }

  /** On chain a task is created exactly by the answer that the node has not responded. */
  lemma {:induction false} OnChainTaskExactly(E: Env, s: State, responded: bool, task: nat)
    requires Enabled(E, s, RespondedAnswer(responded, task))
    ensures Apply(E, s, RespondedAnswer(responded, task)).tasks ==
      if responded then s.tasks else s.tasks[task := Spawned(s.disp.id, s.disp.checked)]
  {
  }

  lemma {:induction false} CheckCreates(E: Env, s: State, todo: set<UnionId>, id: UnionId, t2: real, t3: real, task: nat)
    requires Active(E.terms(id), t2) && Active(E.terms(id), t3) && id in s.tab.tracked && task !in s.tasks
    ensures CheckRetriesAndPending(E, s, DelegatedLoop, todo, id, t2, t3, false, task).tasks ==
      if PassesChecks(E, s, id, t2, t3) then s.tasks[task := Spawned(id, Interval(E.terms(id), t3))] else s.tasks
  {
    var limit, run := Key(id, Interval(E.terms(id), t2)), Key(id, Interval(E.terms(id), t3));
    if AttemptCount(s.tab, limit) < MAX_ATTEMPTS {
      BelowLimit(E, s, DelegatedLoop, todo, id, t2, t3, false, task);
      if run in s.tab.pending {
        PendingSkips(s.(now := t3), todo, run, task);
      } else {
        PendingCreates(s.(now := t3), todo, run, task);
      }
    } else if limit in s.tab.pending {
      AtLimit(E, s, DelegatedLoop, todo, id, t2, t3, false, task);
    } else {
      AtLimitCrashes(E, s, DelegatedLoop, todo, id, t2, t3, false, task);
    }
  }

  lemma {:induction false} PendingSkips(s: State, todo: set<UnionId>, run: Key, task: nat)
    requires run.id in s.tab.tracked && run in s.tab.pending
    ensures CheckPending(s, DelegatedLoop, todo, run, false, task).tasks == s.tasks
  {
  }

  lemma {:induction false} PendingCreates(s: State, todo: set<UnionId>, run: Key, task: nat)
    requires run.id in s.tab.tracked && run !in s.tab.pending
    ensures CheckPending(s, DelegatedLoop, todo, run, false, task).tasks == s.tasks[task := Spawned(run.id, run.interval)]
  {
  }

  /** A delegated task is created exactly when the id is active, its current run has no hash or one
      that did not succeed, and the checks let it through. */
  lemma {:induction false} DelegatedTaskExactly(E: Env, s: State, step: Step)
    requires Shape(E, s) && Enabled(E, s, step) && (step.VisitDelegated? || step.ReceiptAnswer?)
    ensures var id := if step.VisitDelegated? then step.id else s.disp.id;
      step.task in Apply(E, s, step).tasks <==>
        Active(E.terms(id), s.now)
        && (if step.VisitDelegated?
            then var run := Key(id, Interval(E.terms(id), s.now)); run in s.tab.pending ==> s.tab.pending[run].Blocked?
            else !step.ok)
        && Active(E.terms(id), step.t2) && Active(E.terms(id), step.t3) && PassesChecks(E, s, id, step.t2, step.t3)
  {
    match step
    case VisitDelegated(id, t2, t3, task) =>
      assert TodoOk(s, DelegatedLoop, s.disp.todo);
      VisitCreates(E, s, id, t2, t3, task);
    case ReceiptAnswer(ok, t2, t3, task) =>
      CheckedAt(E, s, s.disp.id, t2, t3);
      CheckCreates(E, s, s.disp.todo, s.disp.id, t2, t3, task);
  }

  lemma {:induction false} VisitCreates(E: Env, s: State, id: UnionId, t2: real, t3: real, task: nat)
    requires s.disp.Loop? && id in s.tab.tracked && task !in s.tasks && s.now <= t2 <= t3
    ensures task in ApplyVisitDelegated(E, s, id, t2, t3, task).tasks <==>
      Active(E.terms(id), s.now)
      && (var run := Key(id, Interval(E.terms(id), s.now)); run in s.tab.pending ==> s.tab.pending[run].Blocked?)
      && Active(E.terms(id), t2) && Active(E.terms(id), t3) && PassesChecks(E, s, id, t2, t3)
  {
    if Active(E.terms(id), s.now) {
      CheckedAt(E, s, id, t2, t3);
      CheckCreates(E, s, s.disp.todo - {id}, id, t2, t3, task);
    }
  }

  /** The run k is the one of this clock reading: its window of seconds holds the reading; the run
      of a callback is number 1. */
  ghost predicate IsRunAt(t: Terms, k: int, now: real) {
    if t.period == 0 then k == 1 else t.activeAt + (k - 1) * t.period <= now.Floor < t.activeAt + k * t.period
  }

  lemma {:induction false} IntervalIsRun(t: Terms, now: real, k: int)
    requires Active(t, now)
    ensures IsRunAt(t, k, now) <==> k == Interval(t, now)
  {
    if t.period > 0 { IntervalIsUniqueWindow(t, now, k); }
  }

  lemma {:induction false} StartBlocks(E: Env, s: State, task: nat, t1: real, t2: real)
    requires Enabled(E, s, TaskStart(task, t1, t2)) && Active(E.terms(s.tasks[task].id), t1)
    requires s.tasks[task].id in s.tab.tracked && !PastLastInterval(E.terms(s.tasks[task].id), t2)
    ensures var id := s.tasks[task].id;
      var run, s' := Key(id, Interval(E.terms(id), t1)), ApplyStart(E, s, task, t1, t2);
      s'.tab.pending == s.tab.pending[run := Blocked] && s'.tasks == s.tasks[task := Working(run)]
  {
  }

  /** A created task of a tracked id whose deadline has not passed blocks and executes the run of
      its first clock reading, which need not be the run the dispatcher checked. */
  lemma {:induction false} StartBlocksExactly(E: Env, s: State, task: nat, t1: real, t2: real, k: int)
    requires Shape(E, s) && Enabled(E, s, TaskStart(task, t1, t2)) && s.tasks[task].id in s.tab.tracked
    requires !DeadlinePassed(E.terms(s.tasks[task].id), t2) && IsRunAt(E.terms(s.tasks[task].id), k, t1)
    ensures var s', run := Apply(E, s, TaskStart(task, t1, t2)), Key(s.tasks[task].id, k);
      s'.tab.pending == s.tab.pending[run := Blocked] && s'.tasks == s.tasks[task := Working(run)]
  {
    var id := s.tasks[task].id;
    IntervalMonotone(E.terms(id), s.now, t1);
    IntervalIsRun(E.terms(id), t1, k);
    DeadlineDecided(E.terms(id), t2);
    StartBlocks(E, s, task, t1, t2);
  }

  // ------------------------------------------------------------------------ attempt counts

  /** A receipt that was found and is a success clears the attempts of its run; any other answer,
      and every other run, leaves the dictionaries alone. */
  lemma {:induction false} ReceiptClearsExactly(E: Env, s: State, key: Key, found: bool, k: Key)
    requires Enabled(E, s, PruneReceipt(key, found))
    ensures var s' := Apply(E, s, PruneReceipt(key, found));
      s'.tab.pending == s.tab.pending && s'.tab.tracked == s.tab.tracked
      && (k in s'.tab.attempts <==> k in s.tab.attempts && !(k == key && found && s.receipts[s.lock.snap[key].hash]))
      && (k in s'.tab.attempts ==> s'.tab.attempts[k] == s.tab.attempts[k])
  {
    var s' := ApplyReceipt(s, key, found);
    if found && s.receipts[s.lock.snap[key].hash] {
      assert s'.tab == s.tab.(attempts := s.tab.attempts - {key});
    } else {
      assert s'.tab == s.tab;
    }
  }

  // ---------------------------------------------------------------------- the copied counts

  ghost predicate KeepsRecords(s: State, s': State) {
    s'.records == s.records && s'.copies == s.copies
  }

  lemma {:induction false} DeadlineKeepsRecords(
    E: Env, s: State, todo: set<UnionId>, own: UnionId, replied: bool, t1: real, t2: real, t3: real)
    ensures KeepsRecords(s, CheckDeadline(E, s, todo, own, replied, t1, t2, t3))
  {
    if own !in s.tab.tracked {
      DeadlineSkips(E, s, todo, own, replied, t1, t2, t3);
    } else if PastLastInterval(E.terms(own), t1) {
      DeadlineUntracks(E, s, todo, own, replied, t1, t2, t3);
    } else {
      DeadlineHolds(E, s, todo, own, replied, t1, t2, t3);
    }
  }

  lemma {:induction false} ResponsesKeepRecords(E: Env, s: State, count: int, replied: bool, t1: real, t2: real, t3: real)
    requires s.disp.AskResponses?
    ensures KeepsRecords(s, ApplyResponses(E, s, count, replied, t1, t2, t3))
  {
    DeadlineKeepsRecords(E, s, s.disp.todo, s.disp.id, replied, t1, t2, t3);
  }

  lemma {:induction false} ReceiptKeepsRecords(E: Env, s: State, ok: bool, t2: real, t3: real, task: nat)
    requires Enabled(E, s, ReceiptAnswer(ok, t2, t3, task))
    ensures KeepsRecords(s, Apply(E, s, ReceiptAnswer(ok, t2, t3, task)))
  {
    if !ok { ChecksKeepIds(E, s, DelegatedLoop, s.disp.todo, s.disp.id, t2, t3, false, task); }
  }

  lemma {:induction false} PayKeepsRecords(E: Env, s: State, ok: bool)
    requires Enabled(E, s, PayAnswer(ok))
    ensures KeepsRecords(s, Apply(E, s, PayAnswer(ok)))
  {
  }

  lemma {:induction false} CancelKeepsRecords(E: Env, s: State, cancelled: bool)
    requires Enabled(E, s, CancelAnswer(cancelled))
    ensures KeepsRecords(s, Apply(E, s, CancelAnswer(cancelled)))
  {
  }

  lemma {:induction false} RespondedKeepsRecords(E: Env, s: State, responded: bool, task: nat)
    requires Enabled(E, s, RespondedAnswer(responded, task))
    ensures KeepsRecords(s, Apply(E, s, RespondedAnswer(responded, task)))
  {
  }

  lemma {:induction false} AnswersKeepRecords(E: Env, s: State, step: Step)
    requires Enabled(E, s, step) && IsAnswer(step)
    ensures KeepsRecords(s, Apply(E, s, step))
  {
    match step
    case PayAnswer(ok) => PayKeepsRecords(E, s, ok);
    case CancelAnswer(cancelled) => CancelKeepsRecords(E, s, cancelled);
    case ResponsesAnswer(count, replied, t1, t2, t3) => ResponsesKeepRecords(E, s, count, replied, t1, t2, t3);
    case RespondedAnswer(responded, task) => RespondedKeepsRecords(E, s, responded, task);
    case VisitDelegated(id, t2, t3, task) => VisitKeepsIds(E, s, id, t2, t3, task);
    case ReceiptAnswer(ok, t2, t3, task) => ReceiptKeepsRecords(E, s, ok, t2, t3, task);
  }

  lemma {:induction false} MovesKeepRecords(E: Env, s: State, step: Step)
    requires Enabled(E, s, step) && IsMove(step)
    ensures Apply(E, s, step).records == s.records
    ensures Apply(E, s, step).copies == if step.BeginCycle? then s.records else s.copies
  {
  }

  lemma {:induction false} MessagesKeepRecords(E: Env, s: State, step: Step)
    requires Enabled(E, s, step) && IsWorldStep(step)
    ensures Apply(E, s, step).records == if step.TrackMessage? then s.records[step.id := step.record] else s.records
    ensures Apply(E, s, step).copies == s.copies
  {
  }

  lemma {:induction false} RecordStays(E: Env, s: State, step: Step, id: UnionId)
    requires Enabled(E, s, step) && id in s.records && (step.TrackMessage? ==> step.id != id)
    ensures var s' := Apply(E, s, step); id in s'.records && s'.records[id] == s.records[id]
    ensures step.BeginCycle? ==> id in Apply(E, s, step).copies && Apply(E, s, step).copies[id] == s.records[id]
    ensures !step.BeginCycle? ==> Apply(E, s, step).copies == s.copies
  {
    if IsTaskStep(step) {
      TasksKeepDispatcher(E, s, step);
    } else if IsPruneStep(step) {
      PrunesKeepDispatcher(E, s, step);
    } else if IsWorldStep(step) {
      MessagesKeepRecords(E, s, step);
    } else if IsMove(step) {
      MovesKeepRecords(E, s, step);
    } else {
      AnswersKeepRecords(E, s, step);
    }
  }

  lemma {:induction false} CopyAlong(E: Env, s: State, steps: seq<Step>, id: UnionId, record: Record)
    requires Run(E, s, steps) && id in s.records && s.records[id] == record
    requires forall i :: 0 <= i < |steps| && steps[i].TrackMessage? ==> steps[i].id != id
    requires (id in s.copies && s.copies[id] == record) || exists i :: 0 <= i < |steps| && steps[i].BeginCycle?
    ensures var s' := Final(E, s, steps); id in s'.copies && s'.copies[id] == record
    decreases |steps|
  {
    if steps != [] {
      assert forall i :: 0 <= i < |steps[1..]| ==> steps[1..][i] == steps[i + 1];
      RecordStays(E, s, steps[0], id);
      if !steps[0].BeginCycle? && !(id in s.copies && s.copies[id] == record) {
        var i :| 0 <= i < |steps| && steps[i].BeginCycle?;
        assert steps[1..][i - 1].BeginCycle?;
      }
      CopyAlong(E, Apply(E, s, steps[0]), steps[1..], id, record);
    }
  }

  /** The counts the dispatcher works with are those that came with the message that tracked the
      id, from the first cycle that begins after it on, until the id is tracked again. */
  lemma {:induction false} CopyIsAsTracked(E: Env, s: State, id: UnionId, record: Record, steps: seq<Step>)
    requires Enabled(E, s, TrackMessage(id, record)) && Run(E, Apply(E, s, TrackMessage(id, record)), steps)
    requires forall i :: 0 <= i < |steps| && steps[i].TrackMessage? ==> steps[i].id != id
    requires exists i :: 0 <= i < |steps| && steps[i].BeginCycle?
    ensures StoredCounts(Final(E, Apply(E, s, TrackMessage(id, record)), steps), id) == record.responses
  {
    CopyAlong(E, Apply(E, s, TrackMessage(id, record)), steps, id, record);
  }
}
