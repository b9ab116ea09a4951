/** Runs from the start that leave the guarantees: what the exact conditions exclude does
    happen. */
module ProcessorExamples {
  import opened Subscriptions
  import opened ProcessorTables
  import opened ProcessorProtocol
  import opened ProcessorShape
  import opened ProcessorRuns
  import opened ProcessorProjection
  import opened ProcessorTheorems
  import opened ProcessorSchedules
  import opened ProcessorRounds
  import opened ProcessorExactness

  /** Every subscription is a paying callback with one answer, active since time 0. */
  function Callbacks(): Env {
    Env((id: UnionId) => Terms(0, 0, 1, 1, 1, false))
  }

  const ID: UnionId := OnChain(1)
  const RUN: Key := Key(OnChain(1), 1)
  const BLANK: Record := Record(map[])

  lemma {:induction false} WalkStep(E: Env, s: State, a: seq<Step>, m: State, x: Step) returns (b: seq<Step>, s': State)
    requires Walk(E, s, a, m) && Enabled(E, m, x)
    ensures s' == Apply(E, m, x) && b == a + [x] && Walk(E, s, b, s')
  {
    s' := Apply(E, m, x);
    b := a + [x];
    WalkOne(E, m, x);
    WalkConcat(E, s, a, m, [x], s');
  }

  /** At rest in second 1, with the lock free and no task. */
  ghost predicate Calm(s: State, tracked: set<UnionId>) {
    s.now == 1.0 && s.disp.Asleep? && s.lock.Free? && s.tasks == map[] && s.tab.tracked == tracked
  }

  lemma {:induction false} Tracked(s0: State, a: seq<Step>, s: State, id: UnionId) returns (b: seq<Step>, s': State)
    requires Walk(Callbacks(), s0, a, s) && id !in s.tab.tracked && (id.OnChain? ==> id.id > 0)
    ensures Walk(Callbacks(), s0, b, s') && s' == ApplyTrack(s, id, BLANK)
  {
    b, s' := WalkStep(Callbacks(), s0, a, s, TrackMessage(id, BLANK));
  }

  lemma {:induction false} Sleep(s0: State, a: seq<Step>, s: State) returns (b: seq<Step>, s': State)
    requires Walk(Callbacks(), s0, a, s) && s.disp == Loop(OnChainLoop, {})
    requires forall id :: id in s.tab.tracked ==> id.OnChain?
    ensures Walk(Callbacks(), s0, b, s') && s' == s.(disp := Asleep)
  {
    b, s' := WalkStep(Callbacks(), s0, a, s, NextPhase);
    assert s'.disp == Loop(DelegatedLoop, {});
    b, s' := WalkStep(Callbacks(), s0, b, s', EndCycle);
  }

  lemma {:induction false} DispatchAndSleep(s0: State, a: seq<Step>, s: State) returns (b: seq<Step>, s': State)
    requires Walk(Callbacks(), s0, a, s) && Calm(s, {ID}) && s.tab.pending == map[] && AttemptCount(s.tab, RUN) < MAX_ATTEMPTS
    ensures Walk(Callbacks(), s0, b, s') && s'.now == 1.0 && s'.disp.Asleep? && s'.lock.Free? && s'.waiting > 0
    ensures s'.tasks == map[0 := Working(RUN)] && s'.tab == SetPending(s.tab, RUN, Blocked) && s'.receipts == s.receipts
  {
    LiveRun(s, RUN);
    var c := DispatchIsPossible(Callbacks(), s, RUN, 0);
    var d := Dispatched(s, RUN, 0);
    WalkConcat(Callbacks(), s0, a, s, c, d);
    assert d.disp == Loop(OnChainLoop, {});
    b, s' := Sleep(s0, a + c, d);
  }

  /** Dispatch, send, finish, and a failed transaction. */
  lemma {:induction false} AnswerAndFail(s0: State, a: seq<Step>, s: State, hash: nat) returns (b: seq<Step>, s': State)
    requires Walk(Callbacks(), s0, a, s) && Calm(s, {ID}) && s.tab.pending == map[] && hash !in s.receipts
    requires AttemptCount(s.tab, RUN) < MAX_ATTEMPTS
    ensures Walk(Callbacks(), s0, b, s') && Calm(s', {ID}) && s'.waiting > 0
    ensures s'.tab == s.tab.(pending := map[RUN := Tx(hash)]) && s'.receipts == s.receipts[hash := false]
  {
    b, s' := DispatchAndSleep(s0, a, s);
    b, s' := SendAndFinish(s0, b, s', hash);
    b, s' := WalkStep(Callbacks(), s0, b, s', Mine(hash, false));
  }

  lemma {:induction false} SendAndFinish(s0: State, a: seq<Step>, s: State, hash: nat) returns (b: seq<Step>, s': State)
    requires Walk(Callbacks(), s0, a, s) && s.tasks == map[0 := Working(RUN)]
    ensures Walk(Callbacks(), s0, b, s')
    ensures s' == s.(tasks := map[], sent := s'.sent, tab := SetPending(s.tab, RUN, Tx(hash)))
  {
    b, s' := WalkStep(Callbacks(), s0, a, s, TaskSends(0, hash));
    b, s' := WalkStep(Callbacks(), s0, b, s', TaskFinishes(0));
    assert s'.tasks == map[];
  }

  lemma {:induction false} Asked(s0: State, a: seq<Step>, s: State) returns (b: seq<Step>, s': State)
    requires Walk(Callbacks(), s0, a, s) && s.disp.Asleep? && s.tasks == map[] && s.tab.tracked == {ID}
    ensures Walk(Callbacks(), s0, b, s')
    ensures s' == s.(waiting := s.waiting + 1, copies := s.records, disp := AskPay({}, ID))
  {
    b, s' := WalkStep(Callbacks(), s0, a, s, BeginCycle);
    b, s' := WalkStep(Callbacks(), s0, b, s', Visit(ID));
    assert s'.disp == AskPay({}, ID);
  }

  /** The owner cannot pay: the id is untracked in the middle of whatever prune pass runs. */
  lemma {:induction false} Unpaid(s0: State, a: seq<Step>, s: State) returns (b: seq<Step>, s': State)
    requires Walk(Callbacks(), s0, a, s) && s.disp.Asleep? && s.tasks == map[] && s.tab.tracked == {ID}
    requires forall k :: k in s.tab.pending ==> k == RUN
    ensures Walk(Callbacks(), s0, b, s')
    ensures s' == s.(waiting := s.waiting + 1, copies := s.records, tab := Tables({}, map[], s.tab.attempts))
  {
    b, s' := Asked(s0, a, s);
    b, s' := WalkStep(Callbacks(), s0, b, s', PayAnswer(false));
    assert s'.tab == Tables({}, map[], s.tab.attempts);
    b, s' := Sleep(s0, b, s');
  }

  lemma {:induction false} CopyOne(s0: State, a: seq<Step>, s: State, hash: nat) returns (b: seq<Step>, s': State)
    requires Walk(Callbacks(), s0, a, s) && s.lock.Free? && s.waiting > 0 && s.tab.pending == map[RUN := Tx(hash)]
    ensures Walk(Callbacks(), s0, b, s')
    ensures s' == s.(waiting := s.waiting - 1, lock := Pruning(map[RUN := Tx(hash)], {RUN}, []))
  {
    b, s' := WalkStep(Callbacks(), s0, a, s, PruneAcquire);
    assert s'.lock.todo == {RUN};
  }

  /** A prune pass over the one failed transaction. */
  lemma {:induction false} PruneOne(s0: State, a: seq<Step>, s: State, hash: nat) returns (b: seq<Step>, s': State)
    requires Walk(Callbacks(), s0, a, s) && s.lock.Free? && s.waiting > 0
    requires s.tab.pending == map[RUN := Tx(hash)] && FailedTx(s.receipts, hash)
    ensures Walk(Callbacks(), s0, b, s') && s' == s.(waiting := s.waiting - 1, tab := EvictOne(s.tab, RUN))
  {
    b, s' := CopyOne(s0, a, s, hash);
    b, s' := WalkStep(Callbacks(), s0, b, s', PruneReceipt(RUN, true));
    assert s'.lock == Pruning(map[RUN := Tx(hash)], {}, [RUN]);
    EvictsAlone(s.tab, RUN);
    b, s' := WalkStep(Callbacks(), s0, b, s', PruneFinish);
  }

  lemma {:induction false} LiveRun(s: State, key: Key)
    requires s.now == 1.0 && key.interval == 1
    ensures Live(Callbacks(), s, key)
  {
  }

  /** A stale prune pass breaks exclusive dispatch: it has copied the hash of a failed run and
      waits for its receipt, while the id is untracked and tracked again at a moment when no
      task of the id is in flight; two tasks then execute the run. */
  lemma {:induction false} StalePruneDoublesDispatch() returns (steps: seq<Step>, s: State)
    ensures Walk(Callbacks(), Init(1.0), steps, s) && !SoleExecutor(s, RUN)
  {
    var E, s0 := Callbacks(), Init(1.0);
    assert Walk(E, s0, [], s0);
    steps, s := Tracked(s0, [], s0, ID);
    steps, s := AnswerAndFail(s0, steps, s, 7);
    steps, s := CopyOne(s0, steps, s, 7);
    steps, s := Unpaid(s0, steps, s);
    steps, s := Tracked(s0, steps, s, ID);
    ShapeFromStart(E, steps, s);
    LiveRun(s, RUN);
    var m := s;
    var c: seq<Step>;
    NoDelegated(E, m);
    c, s := StalePassDoubles(E, m, RUN);
    WalkConcat(E, s0, steps, m, c, s);
    steps := steps + c;
  }

  lemma {:induction false} NoDelegated(E: Env, s: State)
    requires forall id :: id in s.tab.tracked ==> id.OnChain?
    ensures NoTrap(E, s)
  {
  }

  lemma {:induction false} ShapeFromStart(E: Env, steps: seq<Step>, s: State)
    requires Walk(E, Init(1.0), steps, s)
    ensures Shape(E, s)
  {
    InitHolds(E, 1.0, RUN, Exclusion);
    RunKeepsShape(E, Init(1.0), steps);
  }

  /** Attempt counts that outlive a tracking period crash the dispatcher: three failures in a
      row, counted, then the owner cannot pay; the hash goes, the count stays, the id is tracked
      again, and its next visit reads the missing hash. */
  lemma {:induction false} LeftoverAttemptsCrashDispatcher() returns (steps: seq<Step>, s: State)
    ensures Walk(Callbacks(), Init(1.0), steps, s) && s.disp.Crashed?
  {
    var E, s0 := Callbacks(), Init(1.0);
    steps, s := ThreeFailures();
    steps, s := Unpaid(s0, steps, s);
    steps, s := Tracked(s0, steps, s, ID);
    LiveRun(s, RUN);
    var m, step := s, BeginCycle;
    var c: seq<Step>;
    c, s, step := TrapIsMet(E, m, RUN);
    WalkConcat(E, s0, steps, m, c, s);
    steps, s := WalkStep(E, s0, steps + c, s, step);
  }

  lemma {:induction false} FailOnce(s0: State, a: seq<Step>, s: State, hash: nat) returns (b: seq<Step>, s': State)
    requires Walk(Callbacks(), s0, a, s) && Calm(s, {ID}) && s.tab.pending == map[] && hash !in s.receipts
    requires AttemptCount(s.tab, RUN) < 2
    ensures Walk(Callbacks(), s0, b, s') && Calm(s', {ID}) && s'.tab == CountFailure(s.tab, RUN)
    ensures s'.receipts == s.receipts[hash := false]
  {
    b, s' := AnswerAndFail(s0, a, s, hash);
    b, s' := PruneOne(s0, b, s', hash);
    assert s'.tab.pending == map[];
  }

  /** Tracking anew under a stale prune pass crashes the dispatcher although no trap is left: two
      failures are counted, the pass has copied the third hash when the owner cannot pay and the
      id is tracked again, and it then counts the third failure of a run without an entry. */
  lemma {:induction false} StalePruneCrashesDispatcher() returns (steps: seq<Step>, s: State)
    ensures Walk(Callbacks(), Init(1.0), steps, s) && s.disp.Crashed?
  {
    var E, s0 := Callbacks(), Init(1.0);
    steps, s := TwoFailuresAndAThird();
    steps, s := Unpaid(s0, steps, s);
    steps, s := Tracked(s0, steps, s, ID);
    ShapeFromStart(E, steps, s);
    LiveRun(s, RUN);
    NoDelegated(E, s);
    var m, c, step := s, steps, BeginCycle;
    c, s := StaleTraps(E, m, RUN);
    WalkConcat(E, s0, steps, m, c, s);
    steps, m := steps + c, s;
    c, s, step := TrapIsMet(E, m, RUN);
    WalkConcat(E, s0, steps, m, c, s);
    steps, s := WalkStep(E, s0, steps + c, s, step);
  }

  lemma {:induction false} TwoFailuresAndAThird() returns (steps: seq<Step>, s: State)
    ensures Walk(Callbacks(), Init(1.0), steps, s) && s.now == 1.0 && s.disp.Asleep? && s.tasks == map[]
    ensures s.tab == Tables({ID}, map[RUN := Tx(9)], map[RUN := 2])
    ensures s.lock == Pruning(map[RUN := Tx(9)], {RUN}, []) && FailedTx(s.receipts, 9)
  {
    var s0 := Init(1.0);
    assert Walk(Callbacks(), s0, [], s0);
    steps, s := Tracked(s0, [], s0, ID);
    steps, s := FailOnce(s0, steps, s, 7);
    steps, s := FailOnce(s0, steps, s, 8);
    steps, s := AnswerAndFail(s0, steps, s, 9);
    steps, s := CopyOne(s0, steps, s, 9);
    assert s.tab.attempts == map[RUN := 2];
  }

  lemma {:induction false} ThreeFailures() returns (steps: seq<Step>, s: State)
    ensures Walk(Callbacks(), Init(1.0), steps, s) && Calm(s, {ID})
    ensures s.tab.attempts == map[RUN := 3] && forall k :: k in s.tab.pending ==> k == RUN
  {
    var s0 := Init(1.0);
    assert Walk(Callbacks(), s0, [], s0);
    steps, s := Tracked(s0, [], s0, ID);
    steps, s := FailOnce(s0, steps, s, 7);
    steps, s := FailOnce(s0, steps, s, 8);
    steps, s := AnswerAndFail(s0, steps, s, 9);
    steps, s := PruneOne(s0, steps, s, 9);
    assert s.tab.attempts == map[RUN := 3];
  }

  const OWNED: Key := Key(Delegated("owner", 1), 1)

  lemma {:induction false} DelegatedStarted() returns (steps: seq<Step>, s: State)
    ensures Walk(Callbacks(), ApplyTrack(Init(1.0), OWNED.id, BLANK), steps, s) && Plain(steps)
    ensures s.tasks == map[0 := Working(OWNED)] && s.receipts == map[] && PeriodLog(s, OWNED) == []
    ensures s.now == 1.0 && s.lock.Free? && OWNED.id in s.tab.tracked && s.disp == Loop(DelegatedLoop, {})
  {
    var E, s1 := Callbacks(), ApplyTrack(Init(1.0), OWNED.id, BLANK);
    LiveRun(s1, OWNED);
    steps, s := DelegatedDispatch(E, s1, OWNED, 0);
  }

  /** A delegated run is dispatched and answered by a transaction that the chain has not decided,
      and the dispatcher sleeps again. */
  lemma {:induction false} AnsweredOnce() returns (steps: seq<Step>, s: State)
    ensures Walk(Callbacks(), ApplyTrack(Init(1.0), OWNED.id, BLANK), steps, s) && Plain(steps)
    ensures s.receipts == map[] && BeforeForce(Callbacks(), s, OWNED) && PeriodLog(s, OWNED) == [7] && s.tasks == map[]
  {
    var E, s1 := Callbacks(), ApplyTrack(Init(1.0), OWNED.id, BLANK);
    steps, s := DelegatedStarted();
    steps, s := DelegatedSends(s1, steps, s);
    steps, s := LeadsStep(E, s1, steps, s, TaskFinishes(0));
    assert s.tasks == map[];
    steps, s := ToSleep(E, s1, steps, s);
    LiveRun(s, OWNED);
  }

  lemma {:induction false} DelegatedSends(s0: State, a: seq<Step>, s: State) returns (b: seq<Step>, s': State)
    requires Leads(Callbacks(), s0, a, s) && s.tasks == map[0 := Working(OWNED)] && PeriodLog(s, OWNED) == []
    ensures Leads(Callbacks(), s0, b, s') && PeriodLog(s', OWNED) == [7]
    ensures s' == s.(tasks := map[0 := Submitted(OWNED, 7)], sent := s'.sent)
  {
    b, s' := LeadsStep(Callbacks(), s0, a, s, TaskSends(0, 7));
    assert PeriodLog(s', OWNED) == PeriodLog(s, OWNED) + [7];
  }

  /** A forced execution answers a run twice: a delegated subscription is tracked once, its run is
      answered, a message forces it while the chain has not decided the transaction, and another
      one is sent. */
  lemma {:induction false} ForcedRunOverlaps() returns (before: seq<Step>, m: State, after: seq<Step>, s: State)
    ensures Walk(Callbacks(), ApplyTrack(Init(1.0), OWNED.id, BLANK), before, m) && Plain(before)
    ensures m.tasks == map[] && Enabled(Callbacks(), m, EvictMessage(OWNED))
    ensures Walk(Callbacks(), Apply(Callbacks(), m, EvictMessage(OWNED)), after, s)
    ensures Plain(after) && Overlaps(s, OWNED) && s.receipts == map[]
  {
    before, m := AnsweredOnce();
    assert PeriodLog(m, OWNED)[0] == 7;
    after, s := AnsweredAgain(Callbacks(), Apply(Callbacks(), m, EvictMessage(OWNED)), OWNED, 0);
  }
}
