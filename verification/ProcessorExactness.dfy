/** The conditions of the guarantees are exact: at a state at rest, tracking an id anew or forcing
    a run is safe if and only if the level says so.  Where it is not, a schedule is built that
    breaks the guarantee. */
module ProcessorExactness {
  import opened Subscriptions
  import opened ProcessorTables
  import opened ProcessorProtocol
  import opened ProcessorShape
  import opened ProcessorRuns
  import opened ProcessorProjection
  import opened ProcessorTheorems
  import opened ProcessorSchedules
  import opened ProcessorRounds

  /** However the run is respected from here on, two tasks never execute it. */
  ghost predicate StaysExclusive(E: Env, s: State, key: Key) {
    forall steps :: OrderlyRun(E, s, steps, key, Exclusion) ==> Run(E, s, steps) && SoleExecutor(Final(E, s, steps), key)
  }

  lemma {:induction false} ExclusiveStays(E: Env, s: State, key: Key)
    requires Shape(E, s) && Exclusive(View(E, s, key))
    ensures StaysExclusive(E, s, key)
  {
    forall steps | OrderlyRun(E, s, steps, key, Exclusion)
      ensures Run(E, s, steps) && SoleExecutor(Final(E, s, steps), key) {
      RunKeeps(E, s, steps, key, Exclusion);
      ExclusiveIsSole(E, Final(E, s, steps), key);
    }
  }

  lemma {:induction false} DoublesEventually(E: Env, s: State, steps: seq<Step>, s': State, key: Key)
    requires Leads(E, s, steps, s') && !SoleExecutor(s', key)
    ensures !StaysExclusive(E, s, key)
  {
    PlainIsOrderly(E, s, steps, key, Exclusion);
  }

  // ------------------------------------------------------------------- a second execution

  /** A free live run that a task still executes is dispatched a second time. */
  lemma {:induction false} SecondDispatch(E: Env, s0: State, a: seq<Step>, s: State, key: Key, t: nat) returns (b: seq<Step>, s': State)
    requires Leads(E, s0, a, s) && AtRest(s) && key.id.OnChain? && key.id in s.tab.tracked && Live(E, s, key)
    requires key !in s.tab.pending && AttemptCount(s.tab, key) < MAX_ATTEMPTS && Executing(s, t, key)
    ensures Leads(E, s0, b, s') && !SoleExecutor(s', key)
  {
    var u := FreshTask(s.tasks);
    var c := DispatchIsPossible(E, s, key, u);
    s' := Dispatched(s, key, u);
    LeadsConcat(E, s0, a, s, c, s');
    b := a + c;
    assert Executing(s', t, key) && Executing(s', u, key) && t != u;
  }

  // -------------------------------------------------------- tracking anew: exclusive dispatch

  /** At rest, with an untracked on-chain id whose run is live; a running prune pass has met no
      other failure, and no delegated subscription would crash the dispatcher. */
  ghost predicate BeforeRetrack(E: Env, s: State, key: Key) {
    AtRest(s) && key.id.OnChain? && key.id.id > 0 && key.id !in s.tab.tracked && Live(E, s, key)
    && OnlyFailure(s.lock, key) && NoTrap(E, s)
  }

  /** Tracking the id anew changes nothing else. */
  lemma {:induction false} RetrackedIs(E: Env, s: State, key: Key, record: Record)
    requires Shape(E, s) && BeforeRetrack(E, s, key)
    ensures var s1 := ApplyTrack(s, key.id, record);
      Shape(E, s1) && AtRest(s1) && key.id in s1.tab.tracked && Live(E, s1, key) && NoTrap(E, s1)
      && s1.lock == s.lock && s1.tasks == s.tasks && s1.receipts == s.receipts
      && SlotOf(s1.tab, key) == SlotOf(s.tab, key) && AttemptCount(s1.tab, key) == AttemptCount(s.tab, key)
  {
    var s1 := ApplyTrack(s, key.id, record);
    TrackShape(E, s, key.id, record);
    forall id: UnionId | id.Delegated? ensures SafeToVisit(E, s1, id) { assert SafeToVisit(E, s, id); }
  }

  /** What the level of exclusive dispatch excludes, seen in the state: a free run that a task
      executes, or that a prune pass can still free. */
  lemma {:induction false} UnsafeForExclusion(E: Env, s: State, key: Key)
    requires Alone(View(E, s, key)) && BeforeRetrack(E, s, key) && !MayTrackAnew(Exclusion, View(E, s, key))
    ensures key !in s.tab.pending
    ensures (exists t :: Executing(s, t, key)) || (ListedOpen(s, key) && AttemptCount(s.tab, key) + 1 < MAX_ATTEMPTS)
  {
    var v := View(E, s, key);
    NobodyExecutes(E, s, key);
    assert !v.past && v.slot != Holds(Blocked);
  }

  /** The run is dispatched, a stale pass frees it, and it is dispatched again. */
  lemma {:induction false} StalePassDoubles(E: Env, s: State, key: Key) returns (steps: seq<Step>, s': State)
    requires LockOk(s) && s.lock.Pruning? && OnlyFailure(s.lock, key) && ListedOpen(s, key)
    requires AtRest(s) && key.id.OnChain? && key.id in s.tab.tracked && Live(E, s, key) && NoTrap(E, s)
    requires key !in s.tab.pending && AttemptCount(s.tab, key) + 1 < MAX_ATTEMPTS
    ensures Leads(E, s, steps, s') && !SoleExecutor(s', key)
  {
    var r: State;
    var t: nat;
    steps, r, t := StaleFrees(E, s, key);
    assert Executing(r, t, key);
    steps, s' := SecondDispatch(E, s, steps, r, key, t);
  }

  lemma {:induction false} UnsafeRetrackDoubles(E: Env, s: State, key: Key, record: Record) returns (steps: seq<Step>, s': State)
    requires Shape(E, s) && Alone(View(E, s, key)) && BeforeRetrack(E, s, key)
    requires AttemptCount(s.tab, key) < MAX_ATTEMPTS && !MayTrackAnew(Exclusion, View(E, s, key))
    ensures Leads(E, ApplyTrack(s, key.id, record), steps, s') && !SoleExecutor(s', key)
  {
    var s1 := ApplyTrack(s, key.id, record);
    RetrackedIs(E, s, key, record);
    UnsafeForExclusion(E, s, key);
    if t :| Executing(s, t, key) {
      assert Leads(E, s1, [], s1) && Executing(s1, t, key);
      steps, s' := SecondDispatch(E, s1, [], s1, key, t);
    } else {
      steps, s' := StalePassDoubles(E, s1, key);
    }
  }

  /** For a run with attempts left, tracking its id anew is safe for exclusive dispatch if and
      only if no task executes it and no stale prune pass can still free it. */
  lemma {:induction false} RetrackExclusionExact(E: Env, s: State, key: Key, record: Record)
    requires Shape(E, s) && Alone(View(E, s, key)) && BeforeRetrack(E, s, key)
    requires AttemptCount(s.tab, key) < MAX_ATTEMPTS
    ensures MayTrackAnew(Exclusion, View(E, s, key)) <==> StaysExclusive(E, ApplyTrack(s, key.id, record), key)
  {
    var s1 := ApplyTrack(s, key.id, record);
    if MayTrackAnew(Exclusion, View(E, s, key)) {
      StepKeeps(E, s, TrackMessage(key.id, record), key, Exclusion);
      ExclusiveStays(E, s1, key);
    } else {
      var steps, s' := UnsafeRetrackDoubles(E, s, key, record);
      DoublesEventually(E, s1, steps, s', key);
    }
  }

  // ------------------------------------------------------------ tracking anew: evictions

  /** However the run is respected from here on, no prune pass evicts it from a task. */
  ghost predicate StaysKept(E: Env, s: State, key: Key) {
    forall steps :: OrderlyRun(E, s, steps, key, Exclusion) ==> Run(E, s, steps) && !EvictsExecuted(E, Final(E, s, steps), key)
  }

  lemma {:induction false} ExclusiveStaysKept(E: Env, s: State, key: Key)
    requires Shape(E, s) && Exclusive(View(E, s, key))
    ensures StaysKept(E, s, key)
  {
    forall steps | OrderlyRun(E, s, steps, key, Exclusion)
      ensures Run(E, s, steps) && !EvictsExecuted(E, Final(E, s, steps), key) {
      RunKeeps(E, s, steps, key, Exclusion);
      ExclusiveEvicts(E, Final(E, s, steps), key);
    }
  }

  lemma {:induction false} EvictsEventually(E: Env, s: State, steps: seq<Step>, s': State, key: Key)
    requires Leads(E, s, steps, s') && EvictsExecuted(E, s', key)
    ensures !StaysKept(E, s, key)
  {
    PlainIsOrderly(E, s, steps, key, Exclusion);
  }

  /** A pass with this one failure evicts the run, whoever executes it. */
  lemma {:induction false} PassEvicts(E: Env, s: State, key: Key)
    requires s.lock.Pruning? && s.lock.todo == {} && s.lock.failed == [key]
    requires key in s.tab.pending && AttemptCount(s.tab, key) + 1 < MAX_ATTEMPTS
    requires !Past(E, s.now, key) && !Doomed(s.disp, key)
    requires s.tab.pending[key].Blocked? || exists t :: Executing(s, t, key)
    ensures EvictsExecuted(E, s, key)
  {
    EvictsAlone(s.tab, key);
  }

  /** A second task fails while the first still executes the run, and the pass evicts it. */
  lemma {:induction false} EvictedUnderTask(E: Env, s: State, key: Key, t: nat) returns (steps: seq<Step>, s': State)
    requires AtRest(s) && key.id.OnChain? && key.id in s.tab.tracked && Live(E, s, key) && NoTrap(E, s)
    requires key !in s.tab.pending && AttemptCount(s.tab, key) + 1 < MAX_ATTEMPTS && Executing(s, t, key)
    ensures Leads(E, s, steps, s') && EvictsExecuted(E, s', key)
  {
    var f, r, g, m: State;
    var w, hash: nat;
    assert Leads(E, s, [], s);
    steps, f := Unlock(E, s, [], s);
    UnlockNoTrap(E, s);
    assert Executing(f, t, key);
    steps, r, w := DispatchToRest(E, s, steps, f, key);
    steps, g, hash := SendAndFail(E, s, steps, r, key, w);
    assert Executing(g, t, key);
    steps, m := PassBegins(E, s, steps, g, key, hash);
    steps, s' := PassLearns(E, s, steps, m, key);
    assert Executing(s', t, key);
    PassEvicts(E, s', key);
  }

  lemma {:induction false} UnlockNoTrap(E: Env, s: State)
    requires NoTrap(E, s)
    ensures NoTrap(E, s.(lock := Free))
  {
    forall id: UnionId | id.Delegated? ensures SafeToVisit(E, s.(lock := Free), id) { assert SafeToVisit(E, s, id); }
  }

  /** The stale pass itself evicts the BLOCKED entry of the new task. */
  lemma {:induction false} BlockedIsEvicted(E: Env, s: State, key: Key) returns (steps: seq<Step>, s': State)
    requires LockOk(s) && s.lock.Pruning? && OnlyFailure(s.lock, key) && ListedOpen(s, key)
    requires AtRest(s) && key.id.OnChain? && key.id in s.tab.tracked && Live(E, s, key)
    requires key !in s.tab.pending && AttemptCount(s.tab, key) + 1 < MAX_ATTEMPTS
    ensures Leads(E, s, steps, s') && EvictsExecuted(E, s', key)
  {
    var w := FreshTask(s.tasks);
    steps := DispatchIsPossible(E, s, key, w);
    LockCanAsk(s, key);
    steps, s' := PassLearns(E, s, steps, Dispatched(s, key, w), key);
    PassEvicts(E, s', key);
  }

  /** For a run with two attempts left, the same condition is exact for evictions: otherwise a
      prune pass can come to evict the run from a task that executes it. */
  lemma {:induction false} RetrackEvictionExact(E: Env, s: State, key: Key, record: Record)
    requires Shape(E, s) && Alone(View(E, s, key)) && BeforeRetrack(E, s, key)
    requires AttemptCount(s.tab, key) + 1 < MAX_ATTEMPTS
    ensures MayTrackAnew(Exclusion, View(E, s, key)) <==> StaysKept(E, ApplyTrack(s, key.id, record), key)
  {
    var s1 := ApplyTrack(s, key.id, record);
    if MayTrackAnew(Exclusion, View(E, s, key)) {
      StepKeeps(E, s, TrackMessage(key.id, record), key, Exclusion);
      ExclusiveStaysKept(E, s1, key);
    } else {
      RetrackedIs(E, s, key, record);
      UnsafeForExclusion(E, s, key);
      var steps: seq<Step>;
      var s': State;
      if t :| Executing(s, t, key) {
        assert Executing(s1, t, key);
        steps, s' := EvictedUnderTask(E, s1, key, t);
      } else {
        steps, s' := BlockedIsEvicted(E, s1, key);
      }
      EvictsEventually(E, s1, steps, s', key);
    }
  }

  // -------------------------------------------------------------- tracking anew: lookups

  /** A trap of a tracked, live, on-chain run is met in the next cycle. */
  lemma {:induction false} TrapIsMet(E: Env, s: State, key: Key) returns (steps: seq<Step>, s': State, step: Step)
    requires AtRest(s) && key.id.OnChain? && key.id in s.tab.tracked && Live(E, s, key) && Trap(s, key)
    ensures Leads(E, s, steps, s') && Enabled(E, s', step) && Checks(E, s', step, key) && Trap(s', key)
    ensures Apply(E, s', step).disp.Crashed?
  {
    steps, s' := VisitIsPossible(E, s, key.id);
    OpenCountIsOpen(E, s');
    step := ResponsesAnswer(OpenCount(E.terms(key.id)), false, s.now, s.now, s.now);
    CheckCrashes(E, s', OnChainLoop, s'.disp.todo, key.id, s.now, s.now, false, 0);
  }

  /** A step is possible that crashes the dispatcher in the retry check of this run. */
  ghost predicate TrapAhead(E: Env, s: State, key: Key) {
    exists step :: Enabled(E, s, step) && Checks(E, s, step, key) && Trap(s, key)
  }

  /** However the run is respected from here on, its retry check never meets a trap. */
  ghost predicate StaysClear(E: Env, s: State, key: Key) {
    forall steps :: OrderlyRun(E, s, steps, key, Lookups) ==> Run(E, s, steps) && !TrapAhead(E, Final(E, s, steps), key)
  }

  lemma {:induction false} ClearStays(E: Env, s: State, key: Key)
    requires Shape(E, s) && Clear(View(E, s, key))
    ensures StaysClear(E, s, key)
  {
    forall steps | OrderlyRun(E, s, steps, key, Lookups)
      ensures Run(E, s, steps) && !TrapAhead(E, Final(E, s, steps), key) {
      RunKeeps(E, s, steps, key, Lookups);
      var s' := Final(E, s, steps);
      forall step | Enabled(E, s', step) && Checks(E, s', step, key) ensures !Trap(s', key) {
        ClearIsNoTrap(E, s', step, key);
      }
    }
  }

  /** A trap that can be reached at rest is met in the cycle after it. */
  lemma {:induction false} CrashesEventually(E: Env, s: State, steps: seq<Step>, s': State, key: Key)
    requires Leads(E, s, steps, s') && AtRest(s') && key.id.OnChain? && key.id in s'.tab.tracked && Live(E, s', key) && Trap(s', key)
    ensures !StaysClear(E, s, key)
  {
    var c, m, step := TrapIsMet(E, s', key);
    LeadsConcat(E, s, steps, s', c, m);
    PlainIsOrderly(E, s, steps + c, key, Lookups);
    assert TrapAhead(E, Final(E, s, steps + c), key);
  }

  /** An unsettled task of an earlier period leads to a trap: if it is working it may release the
      run after three failures of others, and if its transaction fails while another works on the
      run, that one may. */
  lemma {:induction false} UnsettledTraps(E: Env, s: State, key: Key, t: nat) returns (steps: seq<Step>, s': State)
    requires AtRest(s) && key.id.OnChain? && key.id in s.tab.tracked && Live(E, s, key) && NoTrap(E, s)
    requires key !in s.tab.pending && AttemptCount(s.tab, key) < MAX_ATTEMPTS && Executing(s, t, key)
    requires s.tasks[t].Submitted? ==> !Succeeded(s.receipts, s.tasks[t].hash)
    ensures Leads(E, s, steps, s') && Ready(E, s', key) && Trap(s', key)
  {
    var f: State;
    assert Leads(E, s, [], s);
    steps, f := Unlock(E, s, [], s);
    UnlockNoTrap(E, s);
    if s.tasks[t].Working? {
      steps, s' := RoundsToTrap(E, s, steps, f, key, t);
    } else {
      var r, g, p: State;
      var u, hash := 0, s.tasks[t].hash;
      assert Executing(f, t, key);
      steps, r, u := DispatchToRest(E, s, steps, f, key);
      steps, g := FinishAndFail(E, s, steps, r, key, t, hash);
      steps, p := PassOverFailure(E, s, steps, g, key, hash);
      steps, s' := RoundsToTrap(E, s, steps, p, key, u);
    }
  }

  /** A stale pass leads to a trap: it counts the third failure of an empty run, or it frees the
      run under its next task, which may release it after three failures. */
  lemma {:induction false} StaleTraps(E: Env, s: State, key: Key) returns (steps: seq<Step>, s': State)
    requires LockOk(s) && s.lock.Pruning? && OnlyFailure(s.lock, key) && ListedOpen(s, key)
    requires AtRest(s) && key.id.OnChain? && key.id in s.tab.tracked && Live(E, s, key) && NoTrap(E, s)
    requires key !in s.tab.pending && AttemptCount(s.tab, key) < MAX_ATTEMPTS
    ensures Leads(E, s, steps, s') && AtRest(s') && key.id in s'.tab.tracked && Live(E, s', key) && Trap(s', key)
  {
    if AttemptCount(s.tab, key) + 1 < MAX_ATTEMPTS {
      var r: State;
      var u: nat;
      steps, r, u := StaleFrees(E, s, key);
      steps, s' := RoundsToTrap(E, s, steps, r, key, u);
    } else {
      LockCanAsk(s, key);
      assert Leads(E, s, [], s);
      steps, s' := PassCounts(E, s, [], s, key);
    }
  }

  lemma {:induction false} UnsafeRetrackTraps(E: Env, s: State, key: Key, record: Record)
    requires Shape(E, s) && Alone(View(E, s, key)) && BeforeRetrack(E, s, key)
    requires !MayTrackAnew(Lookups, View(E, s, key))
    ensures !StaysClear(E, ApplyTrack(s, key.id, record), key)
  {
    var s1, v := ApplyTrack(s, key.id, record), View(E, s, key);
    RetrackedIs(E, s, key, record);
    assert Leads(E, s1, [], s1);
    assert v.slot != Holds(Blocked);
    if Trap(s, key) {
      CrashesEventually(E, s1, [], s1, key);
    } else if !AllSettled(v) {
      var t :| t in v.exec && !Settled(v, t);
      ExecutingView(E, s, t, key);
      assert Executing(s1, t, key);
      var steps, s' := UnsettledTraps(E, s1, key, t);
      CrashesEventually(E, s1, steps, s', key);
    } else {
      var steps, s' := StaleTraps(E, s1, key);
      CrashesEventually(E, s1, steps, s', key);
    }
  }

  /** Tracking an id anew is safe for the dispatcher's lookups if and only if no unsettled task
      executes its current run, no prune pass can still count a failure of the run while it has
      no entry, and the run does not have three attempts left without an entry. */
  lemma {:induction false} RetrackLookupsExact(E: Env, s: State, key: Key, record: Record)
    requires Shape(E, s) && Alone(View(E, s, key)) && BeforeRetrack(E, s, key)
    ensures MayTrackAnew(Lookups, View(E, s, key)) <==> StaysClear(E, ApplyTrack(s, key.id, record), key)
  {
    if MayTrackAnew(Lookups, View(E, s, key)) {
      assert Clear(View(E, s, key));
      StepKeeps(E, s, TrackMessage(key.id, record), key, Lookups);
      ClearStays(E, ApplyTrack(s, key.id, record), key);
    } else {
      UnsafeRetrackTraps(E, s, key, record);
    }
  }

  // ------------------------------------------------------------------- forced execution

  /** At rest with the lock free, and a tracked delegated id whose run is live. */
  ghost predicate BeforeForce(E: Env, s: State, key: Key) {
    AtRest(s) && s.lock.Free? && key.id.Delegated? && key.id in s.tab.tracked && Live(E, s, key)
  }

  /** The next cycle gets as far as its delegated phase. */
  lemma {:induction false} DelegatedPhaseBegins(E: Env, s: State, key: Key) returns (steps: seq<Step>, s': State)
    requires AtRest(s) && key.id.Delegated?
    ensures Leads(E, s, steps, s') && SameFor(s, s', key)
    ensures s' == s.(waiting := s.waiting + 1, copies := s.records, tab := s'.tab,
                     disp := Loop(DelegatedLoop, set id | id in s.tab.tracked && id.Delegated?))
  {
    var s1, s2: State;
    steps, s1 := CycleBegins(E, s);
    steps, s2 := OnChainPhaseEnds(E, s, steps, s1);
    assert SameFor(s1, s2, key);
    SameDelegated(s1, s2);
    steps, s' := ToDelegated(E, s, steps, s2);
  }

  lemma {:induction false} SameDelegated(s: State, s': State)
    requires s.disp.Loop? && forall id :: id in s.disp.todo ==> id.OnChain?
    requires forall id :: id !in s.disp.todo ==> (id in s'.tab.tracked <==> id in s.tab.tracked)
    ensures (set id | id in s'.tab.tracked && id.Delegated?) == (set id | id in s.tab.tracked && id.Delegated?)
  {
  }

  /** A free run of a delegated id is dispatched in the next cycle. */
  lemma {:induction false} DelegatedDispatch(E: Env, s: State, key: Key, task: nat) returns (steps: seq<Step>, s': State)
    requires AtRest(s) && key.id.Delegated? && key.id in s.tab.tracked && Live(E, s, key) && task !in s.tasks
    requires key !in s.tab.pending && AttemptCount(s.tab, key) < MAX_ATTEMPTS
    ensures Leads(E, s, steps, s') && s'.tasks == s.tasks[task := Working(key)] && s'.receipts == s.receipts
    ensures PeriodLog(s', key) == PeriodLog(s, key) && s'.now == s.now && s'.lock == s.lock
    ensures key.id in s'.tab.tracked
    ensures s'.disp == Loop(DelegatedLoop, (set id | id in s.tab.tracked && id.Delegated?) - {key.id})
  {
    var m, n: State;
    steps, m := DelegatedPhaseBegins(E, s, key);
    assert key !in m.tab.pending && AttemptCount(m.tab, key) < MAX_ATTEMPTS && m.tasks == s.tasks;
    steps, n := FreeIsVisited(E, s, steps, m, key, task);
    steps, s' := LeadsStep(E, s, steps, n, TaskStart(task, s.now, s.now));
    assert s' == n.(tab := SetPending(n.tab, key, Blocked), tasks := n.tasks[task := Working(key)]);
    assert s'.tasks == s.tasks[task := Working(key)];
  }

  lemma {:induction false} FreeIsVisited(E: Env, s0: State, a: seq<Step>, s: State, key: Key, task: nat) returns (b: seq<Step>, s': State)
    requires Leads(E, s0, a, s) && s.disp.Loop? && s.disp.phase == DelegatedLoop && key.id in s.disp.todo && task !in s.tasks
    requires key.id in s.tab.tracked && Live(E, s, key) && key !in s.tab.pending && AttemptCount(s.tab, key) < MAX_ATTEMPTS
    ensures Leads(E, s0, b, s')
    ensures s' == s.(disp := Loop(DelegatedLoop, s.disp.todo - {key.id}), tasks := s.tasks[task := Spawned(key.id, key.interval)])
  {
    b, s' := LeadsStep(E, s0, a, s, VisitDelegated(key.id, s.now, s.now, task));
  }

  /** Forcing a run is safe for exclusive dispatch if and only if no task executes it. */
  lemma {:induction false} ForceExclusionExact(E: Env, s: State, key: Key)
    requires Shape(E, s) && Exclusive(View(E, s, key)) && BeforeForce(E, s, key)
    ensures (forall t :: !Executing(s, t, key)) <==> StaysExclusive(E, Apply(E, s, EvictMessage(key)), key)
  {
    var s1 := Apply(E, s, EvictMessage(key));
    NobodyExecutes(E, s, key);
    if forall t :: !Executing(s, t, key) {
      StepKeeps(E, s, EvictMessage(key), key, Exclusion);
      ExclusiveStays(E, s1, key);
    } else {
      var t :| Executing(s, t, key);
      ForcedDoubles(E, s, key, t);
    }
  }

  lemma {:induction false} ForcedDoubles(E: Env, s: State, key: Key, t: nat)
    requires BeforeForce(E, s, key) && Executing(s, t, key)
    ensures !StaysExclusive(E, Apply(E, s, EvictMessage(key)), key)
  {
    var s1 := Apply(E, s, EvictMessage(key));
    var u := FreshTask(s.tasks);
    var steps, s' := DelegatedDispatch(E, s1, key, u);
    assert Executing(s', t, key) && Executing(s', u, key) && t != u;
    DoublesEventually(E, s1, steps, s', key);
  }

  // ------------------------------------------------------------- one answer at a time

  /** A transaction of the period was followed by another one although it has not failed. */
  ghost predicate Overlaps(s: State, key: Key) {
    exists i :: 0 <= i < |PeriodLog(s, key)| - 1 && !FailedTx(s.receipts, PeriodLog(s, key)[i])
  }

  lemma {:induction false} FailuresDontOverlap(s: State, key: Key)
    requires AllFailed(s.receipts, Closed(s, key)) && AtMostOneLive(s.receipts, Sent(s, key))
    ensures !Overlaps(s, key)
  {
    var closed, sent, log := Closed(s, key), Sent(s, key), PeriodLog(s, key);
    forall i | 0 <= i < |log| - 1 ensures FailedTx(s.receipts, log[i]) {
      if i < |closed| {
        assert log[i] == closed[i];
      } else {
        assert log[i] == sent[..|sent| - 1][i - |closed|];
      }
    }
  }

  /** Without a forced execution in the period, a run is answered by at most three transactions,
      and by none while an earlier one has not failed. */
  lemma {:induction false} OneAtATimeUnlessForced(E: Env, start: real, steps: seq<Step>, s: State, key: Key)
    requires Reached(E, start, steps, s, key, Retries) && Forced(s, key) == 0
    ensures |PeriodLog(s, key)| <= MAX_ATTEMPTS && !Overlaps(s, key)
  {
    RetryBound(E, start, steps, s, key);
    ReachedKeeps(E, start, steps, s, key, Retries);
    FailuresDontOverlap(s, key);
  }

  /** However the run is respected from here on, its transactions do not overlap unless it is
      forced once more. */
  ghost predicate StaysOneAtATime(E: Env, s: State, key: Key) {
    forall steps :: OrderlyRun(E, s, steps, key, Retries) && Forcings(steps, key) == 0 ==>
      Run(E, s, steps) && !Overlaps(Final(E, s, steps), key)
  }

  /** The failed transactions of earlier executions stay, until the id is tracked anew. */
  lemma {:induction false} ClosedStays(E: Env, s: State, step: Step, key: Key)
    requires Shape(E, s) && Enabled(E, s, step) && step != EvictMessage(key) && AllFailed(s.receipts, Closed(s, key))
    ensures AllFailed(Apply(E, s, step).receipts, Closed(Apply(E, s, step), key))
  {
    StepProjects(E, s, step, key);
    LogMoves(E, s, step, key);
    ClosedMoves(View(E, s, key), MovesOf(E, s, step, key));
  }

  lemma {:induction false} ClosedMoves(v: RunView, ms: Moves)
    requires CanAll(v, ms) && !ms.first.Force? && !ms.second.Force? && !ms.third.Force? && AllFailed(v.receipts, v.closed)
    ensures AllFailed(DoAll(v, ms).receipts, DoAll(v, ms).closed)
  {
    ClosedMove(v, ms.first);
    ClosedMove(Do(v, ms.first), ms.second);
    ClosedMove(Do(Do(v, ms.first), ms.second), ms.third);
  }

  lemma {:induction false} ClosedMove(v: RunView, m: Move)
    requires Can(v, m) && !m.Force? && AllFailed(v.receipts, v.closed)
    ensures AllFailed(Do(v, m).receipts, Do(v, m).closed)
  {
    if m.Mined? {
      assert forall h :: FailedTx(v.receipts, h) ==> FailedTx(Do(v, m).receipts, h);
    } else if !m.TrackAnew? {
      assert Do(v, m).closed == v.closed && Do(v, m).receipts == v.receipts;
    }
  }

  lemma {:induction false} OneAtATimeAlong(E: Env, s: State, steps: seq<Step>, key: Key)
    requires Shape(E, s) && Bounded(View(E, s, key)) && AllFailed(s.receipts, Closed(s, key))
    requires OrderlyRun(E, s, steps, key, Retries) && Forcings(steps, key) == 0
    ensures Run(E, s, steps) && !Overlaps(Final(E, s, steps), key)
    decreases |steps|
  {
    if steps == [] {
      FailuresDontOverlap(s, key);
    } else {
      StepKeeps(E, s, steps[0], key, Retries);
      ClosedStays(E, s, steps[0], key);
      OneAtATimeAlong(E, Apply(E, s, steps[0]), steps[1..], key);
    }
  }

  /** The free run is dispatched and answered once more, with the earlier transaction as it is. */
  lemma {:induction false} AnsweredAgain(E: Env, s: State, key: Key, i: nat) returns (steps: seq<Step>, s': State)
    requires AtRest(s) && key.id.Delegated? && key.id in s.tab.tracked && Live(E, s, key)
    requires key !in s.tab.pending && AttemptCount(s.tab, key) < MAX_ATTEMPTS
    requires i < |PeriodLog(s, key)| && !FailedTx(s.receipts, PeriodLog(s, key)[i])
    ensures Leads(E, s, steps, s') && Overlaps(s', key) && s'.receipts == s.receipts
  {
    var m: State;
    var u := FreshTask(s.tasks);
    var hash := Bound(s.receipts.Keys);
    steps, m := DelegatedDispatch(E, s, key, u);
    steps, s' := LeadsStep(E, s, steps, m, TaskSends(u, hash));
    assert PeriodLog(s', key) == PeriodLog(s, key) + [hash];
    assert PeriodLog(s', key)[i] == PeriodLog(s, key)[i];
  }

  /** Forcing a run that nobody executes keeps its transactions from overlapping if and only if
      every transaction of the period has failed. */
  lemma {:induction false} ForceOverlapExact(E: Env, s: State, key: Key)
    requires Shape(E, s) && Bounded(View(E, s, key)) && BeforeForce(E, s, key) && forall t :: !Executing(s, t, key)
    ensures AllFailed(s.receipts, PeriodLog(s, key)) <==> StaysOneAtATime(E, Apply(E, s, EvictMessage(key)), key)
  {
    var s1 := Apply(E, s, EvictMessage(key));
    NobodyExecutes(E, s, key);
    assert Closed(s1, key) == PeriodLog(s1, key) == PeriodLog(s, key);
    if AllFailed(s.receipts, PeriodLog(s, key)) {
      StepKeeps(E, s, EvictMessage(key), key, Retries);
      forall steps | OrderlyRun(E, s1, steps, key, Retries) && Forcings(steps, key) == 0
        ensures Run(E, s1, steps) && !Overlaps(Final(E, s1, steps), key) {
        OneAtATimeAlong(E, s1, steps, key);
      }
    } else {
      var i :| 0 <= i < |PeriodLog(s, key)| && !FailedTx(s.receipts, PeriodLog(s, key)[i]);
      var steps, s' := AnsweredAgain(E, s1, key, i);
      PlainIsOrderly(E, s1, steps, key, Retries);
      PlainForcesNothing(steps, key);
    }
  }

  lemma {:induction false} PlainForcesNothing(steps: seq<Step>, key: Key)
    requires Plain(steps)
    ensures Forcings(steps, key) == 0
  {
    if steps != [] {
      assert Plain(steps[1..]);
      PlainForcesNothing(steps[1..], key);
    }
  }
}
