/** Longer schedules: a prune pass over one run, a round of dispatch and failure, and the rounds
    that leave a run without an entry after its third counted failure. */
module ProcessorRounds {
  import opened Subscriptions
  import opened ProcessorTables
  import opened ProcessorProtocol
  import opened ProcessorShape
  import opened ProcessorRuns
  import opened ProcessorProjection
  import opened ProcessorTheorems
  import opened ProcessorSchedules

  // -------------------------------------------------------------------- one prune pass

  /** A prune pass that has found no failure but perhaps this one. */
  ghost predicate OnlyFailure(lock: Lock, key: Key) {
    lock.Pruning? ==> forall k :: k in lock.failed ==> k == key
  }

  /** The pass copied a hash for each of its remaining questions. */
  ghost predicate CanAsk(lock: Lock) {
    lock.Pruning? && forall k :: k in lock.todo ==> k in lock.snap && lock.snap[k].Tx?
  }

  /** The pass lists the run with a transaction that has not succeeded. */
  ghost predicate ListedOpen(s: State, key: Key) {
    !ListingOf(s.lock, key).Unlisted? && !Succeeded(s.receipts, ListingOf(s.lock, key).hash)
  }

  /** The pass asks its remaining questions and finds nothing more. */
  lemma {:induction false} PassDrains(E: Env, s0: State, a: seq<Step>, s: State) returns (b: seq<Step>, s': State)
    requires Leads(E, s0, a, s) && CanAsk(s.lock)
    ensures Leads(E, s0, b, s') && s' == s.(lock := s.lock.(todo := {}))
    decreases if s.lock.Pruning? then |s.lock.todo| else 0
  {
    if s.lock.todo == {} {
      b, s' := a, s;
    } else {
      var k :| k in s.lock.todo;
      var s1: State;
      b, s1 := LeadsStep(E, s0, a, s, PruneReceipt(k, false));
      assert s1 == s.(lock := s.lock.(todo := s.lock.todo - {k}));
      b, s' := PassDrains(E, s0, b, s1);
    }
  }

  lemma {:induction false} HeadIsIn(keys: seq<Key>)
    ensures keys == [] || keys[0] in keys
  {
  }

  lemma {:induction false} FirstTwoDiffer(keys: seq<Key>)
    requires Distinct(keys)
    ensures |keys| > 1 ==> keys[0] != keys[1]
  {
  }

  lemma {:induction false} OnlyOne(failed: seq<Key>, key: Key)
    requires Distinct(failed) && key in failed && forall k :: k in failed ==> k == key
    ensures failed == [key]
  {
    forall i | 0 <= i < |failed| ensures failed[i] == key { assert failed[i] in failed; }
    FirstTwoDiffer(failed);
  }

  /** The pass asks about this run, and is told that the transaction failed. */
  lemma {:induction false} PassAsks(E: Env, s0: State, a: seq<Step>, s: State, key: Key) returns (b: seq<Step>, s': State)
    requires Leads(E, s0, a, s) && CanAsk(s.lock) && key in s.lock.todo && s.lock.failed == []
    requires !Succeeded(s.receipts, s.lock.snap[key].hash)
    ensures Leads(E, s0, b, s') && s' == s.(lock := Asked(s.lock, key, true), receipts := s'.receipts)
  {
    var hash, m := s.lock.snap[key].hash, s;
    b := a;
    if hash !in s.receipts { b, m := LeadsStep(E, s0, a, s, Mine(hash, false)); }
    b, s' := LeadsStep(E, s0, b, m, PruneReceipt(key, true));
  }

  /** The pass comes to its end with the failure of this run, and no other, to count. */
  lemma {:induction false} PassLearns(E: Env, s0: State, a: seq<Step>, s: State, key: Key) returns (b: seq<Step>, s': State)
    requires Leads(E, s0, a, s) && CanAsk(s.lock) && OnlyFailure(s.lock, key) && ListedOpen(s, key)
    requires Distinct(s.lock.failed) && (key in s.lock.todo ==> key !in s.lock.failed)
    ensures Leads(E, s0, b, s') && s' == s.(lock := s'.lock, receipts := s'.receipts)
    ensures s'.lock.Pruning? && s'.lock.todo == {} && s'.lock.failed == [key]
  {
    var m: State;
    if key in s.lock.todo {
      HeadIsIn(s.lock.failed);
      b, m := PassAsks(E, s0, a, s, key);
    } else {
      b, m := a, s;
      OnlyOne(s.lock.failed, key);
    }
    b, s' := PassDrains(E, s0, b, m);
  }

  lemma {:induction false} EvictsAlone(tab: Tables, key: Key)
    requires !EvictionMisses(tab, key)
    ensures EvictAll(tab, [key]) == EvictOne(tab, key)
  {
    assert [key][1..] == [];
    assert EvictAll(EvictOne(tab, key), []) == EvictOne(tab, key);
  }

  /** The pass counts the failure of this run, and no other. */
  lemma {:induction false} PassCounts(E: Env, s0: State, a: seq<Step>, s: State, key: Key) returns (b: seq<Step>, s': State)
    requires Leads(E, s0, a, s) && CanAsk(s.lock) && OnlyFailure(s.lock, key) && ListedOpen(s, key)
    requires Distinct(s.lock.failed) && (key in s.lock.todo ==> key !in s.lock.failed)
    requires !EvictionMisses(s.tab, key)
    ensures Leads(E, s0, b, s') && s' == s.(lock := Free, receipts := s'.receipts, tab := EvictOne(s.tab, key))
  {
    var m: State;
    b, m := PassLearns(E, s0, a, s, key);
    EvictsAlone(s.tab, key);
    b, s' := LeadsStep(E, s0, b, m, PruneFinish);
  }

  /** A reachable lock can be asked. */
  lemma {:induction false} LockCanAsk(s: State, key: Key)
    requires LockOk(s) && s.lock.Pruning?
    ensures CanAsk(s.lock) && Distinct(s.lock.failed) && (key in s.lock.todo ==> key !in s.lock.failed)
  {
    forall k | k in s.lock.todo ensures k in s.lock.snap && s.lock.snap[k].Tx? { assert ListedOk(s, k); }
  }

  // ------------------------------------------------------------------------ ready to go on

  /** At rest with the lock free, and an on-chain run that is live and tracked; no delegated
      subscription would crash the dispatcher. */
  ghost predicate Ready(E: Env, s: State, key: Key) {
    AtRest(s) && s.lock.Free? && key.id.OnChain? && key.id in s.tab.tracked && Live(E, s, key) && NoTrap(E, s)
  }

  /** Only this run changes, and its tasks stay. */
  ghost predicate OnlyRun(s: State, s': State, key: Key) {
    s'.now == s.now && s'.disp == s.disp && s'.tab.tracked == s.tab.tracked
    && (forall k: Key :: k != key ==> SlotOf(s'.tab, k) == SlotOf(s.tab, k))
    && (forall k: Key :: k != key ==> AttemptCount(s'.tab, k) == AttemptCount(s.tab, k))
    && (forall t :: t in s'.tasks ==> !s'.tasks[t].Spawned?)
  }

  lemma {:induction false} StaysReady(E: Env, s: State, s': State, key: Key)
    requires Ready(E, s, key) && OnlyRun(s, s', key) && s'.lock.Free?
    ensures Ready(E, s', key)
  {
    forall id: UnionId | id.Delegated? ensures SafeToVisit(E, s', id) {
      assert SafeToVisit(E, s, id);
      if Active(E.terms(id), s.now) {
        var run := Key(id, Interval(E.terms(id), s.now));
        assert SlotOf(s'.tab, run) == SlotOf(s.tab, run) && AttemptCount(s'.tab, run) == AttemptCount(s.tab, run);
      }
    }
  }

  /** A running pass may end early, by an error, without counting anything. */
  lemma {:induction false} Unlock(E: Env, s0: State, a: seq<Step>, s: State) returns (b: seq<Step>, s': State)
    requires Leads(E, s0, a, s)
    ensures Leads(E, s0, b, s') && s' == s.(lock := Free)
  {
    if s.lock.Pruning? {
      b, s' := LeadsStep(E, s0, a, s, PruneRaises);
    } else {
      b, s' := a, s;
    }
  }

  /** A free run is dispatched and the dispatcher comes back to rest. */
  lemma {:induction false} DispatchToRest(E: Env, s0: State, a: seq<Step>, s: State, key: Key)
    returns (b: seq<Step>, s': State, w: nat)
    requires Leads(E, s0, a, s) && Ready(E, s, key) && key !in s.tab.pending && AttemptCount(s.tab, key) < MAX_ATTEMPTS
    ensures Leads(E, s0, b, s') && Ready(E, s', key) && s'.waiting > 0 && s'.receipts == s.receipts
    ensures w !in s.tasks && w in s'.tasks && s'.tasks[w] == Working(key)
    ensures SlotOf(s'.tab, key) == Holds(Blocked) && AttemptCount(s'.tab, key) == AttemptCount(s.tab, key)
    ensures forall t :: Executing(s, t, key) ==> t in s'.tasks && s'.tasks[t] == s.tasks[t]
  {
    w := FreshTask(s.tasks);
    var c := DispatchIsPossible(E, s, key, w);
    var d := Dispatched(s, key, w);
    LeadsConcat(E, s0, a, s, c, d);
    DispatchedNoTrap(E, s, key, w);
    b, s' := CycleEnds(E, s0, a + c, d, key);
    assert Executing(d, w, key);
    assert forall t :: Executing(s, t, key) ==> Executing(d, t, key) && d.tasks[t] == s.tasks[t];
  }

  lemma {:induction false} DispatchedNoTrap(E: Env, s: State, key: Key, w: nat)
    requires NoTrap(E, s) && key.id.OnChain?
    ensures NoTrap(E, Dispatched(s, key, w))
  {
    forall id: UnionId | id.Delegated? ensures SafeToVisit(E, Dispatched(s, key, w), id) { assert SafeToVisit(E, s, id); }
  }

  // ------------------------------------------------------------------- a round of failure

  /** A task records a transaction that has not succeeded, and it fails. */
  lemma {:induction false} FinishAndFail(E: Env, s0: State, a: seq<Step>, s: State, key: Key, w: nat, hash: nat)
    returns (b: seq<Step>, s': State)
    requires Leads(E, s0, a, s) && Ready(E, s, key) && w in s.tasks && s.tasks[w] == Submitted(key, hash)
    requires !Succeeded(s.receipts, hash)
    ensures Leads(E, s0, b, s') && Ready(E, s', key) && s'.waiting == s.waiting
    ensures SlotOf(s'.tab, key) == Holds(Tx(hash)) && FailedTx(s'.receipts, hash)
    ensures AttemptCount(s'.tab, key) == AttemptCount(s.tab, key) && s'.tasks == s.tasks - {w}
  {
    var m: State;
    b, m := LeadsStep(E, s0, a, s, TaskFinishes(w));
    StaysReady(E, s, m, key);
    s' := m;
    if hash !in s.receipts {
      b, s' := LeadsStep(E, s0, b, m, Mine(hash, false));
      StaysReady(E, m, s', key);
    }
  }

  lemma {:induction false} SendAndFail(E: Env, s0: State, a: seq<Step>, s: State, key: Key, w: nat)
    returns (b: seq<Step>, s': State, hash: nat)
    requires Leads(E, s0, a, s) && Ready(E, s, key) && w in s.tasks && s.tasks[w] == Working(key)
    ensures Leads(E, s0, b, s') && Ready(E, s', key) && s'.waiting == s.waiting
    ensures SlotOf(s'.tab, key) == Holds(Tx(hash)) && FailedTx(s'.receipts, hash)
    ensures AttemptCount(s'.tab, key) == AttemptCount(s.tab, key) && s'.tasks == s.tasks - {w}
  {
    hash := Bound(s.receipts.Keys);
    var m: State;
    b, m := LeadsStep(E, s0, a, s, TaskSends(w, hash));
    StaysReady(E, s, m, key);
    b, s' := FinishAndFail(E, s0, b, m, key, w, hash);
  }

  /** A fresh pass that will find this failure, and no other. */
  lemma {:induction false} PassBegins(E: Env, s0: State, a: seq<Step>, s: State, key: Key, hash: nat)
    returns (b: seq<Step>, s': State)
    requires Leads(E, s0, a, s) && s.lock.Free? && s.waiting > 0
    requires SlotOf(s.tab, key) == Holds(Tx(hash)) && FailedTx(s.receipts, hash)
    ensures Leads(E, s0, b, s') && s' == s.(lock := s'.lock, waiting := s'.waiting)
    ensures CanAsk(s'.lock) && s'.lock.failed == [] && ListedOpen(s', key)
  {
    b, s' := LeadsStep(E, s0, a, s, PruneAcquire);
    assert key in s'.lock.todo;
  }

  lemma {:induction false} PassOverFailure(E: Env, s0: State, a: seq<Step>, s: State, key: Key, hash: nat)
    returns (b: seq<Step>, s': State)
    requires Leads(E, s0, a, s) && Ready(E, s, key) && s.waiting > 0
    requires SlotOf(s.tab, key) == Holds(Tx(hash)) && FailedTx(s.receipts, hash)
    ensures Leads(E, s0, b, s') && Ready(E, s', key) && s'.tasks == s.tasks
    ensures AttemptCount(s'.tab, key) == AttemptCount(s.tab, key) + 1
    ensures SlotOf(s'.tab, key) == if AttemptCount(s'.tab, key) < MAX_ATTEMPTS then Empty else Holds(Tx(hash))
  {
    var m: State;
    b, m := PassBegins(E, s0, a, s, key, hash);
    b, s' := PassCounts(E, s0, b, m, key);
    StaysReady(E, s, s', key);
  }

  /** A free run is dispatched, answered and fails, and the failure is counted; other tasks that
      execute it stay. */
  lemma {:induction false} FailRound(E: Env, s0: State, a: seq<Step>, s: State, key: Key) returns (b: seq<Step>, s': State)
    requires Leads(E, s0, a, s) && Ready(E, s, key) && key !in s.tab.pending && AttemptCount(s.tab, key) < MAX_ATTEMPTS
    ensures Leads(E, s0, b, s') && Ready(E, s', key)
    ensures AttemptCount(s'.tab, key) == AttemptCount(s.tab, key) + 1
    ensures AttemptCount(s'.tab, key) < MAX_ATTEMPTS ==> key !in s'.tab.pending
    ensures AttemptCount(s'.tab, key) >= MAX_ATTEMPTS ==> key in s'.tab.pending
    ensures forall t :: Executing(s, t, key) ==> t in s'.tasks && s'.tasks[t] == s.tasks[t]
  {
    var r, f: State;
    var w, hash: nat;
    b, r, w := DispatchToRest(E, s0, a, s, key);
    b, f, hash := SendAndFail(E, s0, b, r, key, w);
    b, s' := PassOverFailure(E, s0, b, f, key, hash);
  }

  // --------------------------------------------------------------------- rounds to a trap

  /** A working task whose container fails releases the run. */
  lemma {:induction false} Released(E: Env, s0: State, a: seq<Step>, s: State, key: Key, u: nat) returns (b: seq<Step>, s': State)
    requires Leads(E, s0, a, s) && Ready(E, s, key) && u in s.tasks && s.tasks[u] == Working(key) && key in s.tab.pending
    ensures Leads(E, s0, b, s') && Ready(E, s', key) && key !in s'.tab.pending
    ensures AttemptCount(s'.tab, key) == AttemptCount(s.tab, key)
  {
    b, s' := LeadsStep(E, s0, a, s, TaskContainerFails(u, true));
    assert s' == DropTask(s.(tab := Release(s.tab, key)), u);
    StaysReady(E, s, s', key);
  }

  /** While a task is still working on it, a free run is dispatched and fails until three
      failures are counted; then that task releases it, and no entry is left. */
  lemma {:induction false} RoundsToTrap(E: Env, s0: State, a: seq<Step>, s: State, key: Key, u: nat) returns (b: seq<Step>, s': State)
    requires Leads(E, s0, a, s) && Ready(E, s, key) && u in s.tasks && s.tasks[u] == Working(key)
    requires key in s.tab.pending <==> AttemptCount(s.tab, key) >= MAX_ATTEMPTS
    ensures Leads(E, s0, b, s') && Ready(E, s', key) && Trap(s', key)
    decreases MAX_ATTEMPTS - AttemptCount(s.tab, key)
  {
    if AttemptCount(s.tab, key) >= MAX_ATTEMPTS {
      b, s' := Released(E, s0, a, s, key, u);
    } else {
      var m: State;
      assert Executing(s, u, key);
      b, m := FailRound(E, s0, a, s, key);
      b, s' := RoundsToTrap(E, s0, b, m, key, u);
    }
  }

  /** A stale pass counts a failure against a run that has just been dispatched, and frees it
      under its task. */
  lemma {:induction false} StaleFrees(E: Env, s: State, key: Key) returns (steps: seq<Step>, s': State, w: nat)
    requires LockOk(s) && s.lock.Pruning? && OnlyFailure(s.lock, key) && ListedOpen(s, key)
    requires AtRest(s) && key.id.OnChain? && key.id in s.tab.tracked && Live(E, s, key) && NoTrap(E, s)
    requires key !in s.tab.pending && AttemptCount(s.tab, key) + 1 < MAX_ATTEMPTS
    ensures Leads(E, s, steps, s') && Ready(E, s', key) && key !in s'.tab.pending
    ensures w in s'.tasks && s'.tasks[w] == Working(key)
    ensures AttemptCount(s'.tab, key) == AttemptCount(s.tab, key) + 1
  {
    w := FreshTask(s.tasks);
    steps := DispatchIsPossible(E, s, key, w);
    var d := Dispatched(s, key, w);
    var f: State;
    LockCanAsk(s, key);
    steps, f := PassCounts(E, s, steps, d, key);
    DispatchedNoTrap(E, s, key, w);
    CountNoTrap(E, d, f, key);
    assert Executing(f, w, key);
    steps, s' := CycleEnds(E, s, steps, f, key);
  }

  lemma {:induction false} CountNoTrap(E: Env, s: State, s': State, key: Key)
    requires NoTrap(E, s) && key.id.OnChain? && s'.now == s.now && s'.tab == EvictOne(s.tab, key)
    ensures NoTrap(E, s')
  {
    forall id: UnionId | id.Delegated? ensures SafeToVisit(E, s', id) { assert SafeToVisit(E, s, id); }
  }
}
