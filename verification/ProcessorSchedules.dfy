/** Schedules of the chain processor that exist: a live run can be dispatched in the next cycle,
    and every cycle can be brought to its end.  ProcessorExactness.dfy builds on them. */
module ProcessorSchedules {
  import opened Subscriptions
  import opened ProcessorTables
  import opened ProcessorProtocol
  import opened ProcessorShape
  import opened ProcessorRuns
  import opened ProcessorProjection
  import opened ProcessorTheorems

  // --------------------------------------------------------------------- plain schedules

  ghost predicate Walk(E: Env, s: State, steps: seq<Step>, s': State) {
    Run(E, s, steps) && Final(E, s, steps) == s'
  }

  lemma {:induction false} WalkOne(E: Env, s: State, x: Step)
    requires Enabled(E, s, x)
    ensures Walk(E, s, [x], Apply(E, s, x))
  {
    var s' := Apply(E, s, x);
    assert [x][1..] == [];
    assert Run(E, s', []) && Final(E, s', []) == s';
  }

  lemma {:induction false} WalkConcat(E: Env, s: State, a: seq<Step>, m: State, b: seq<Step>, s': State)
    requires Walk(E, s, a, m) && Walk(E, m, b, s')
    ensures Walk(E, s, a + b, s')
    decreases |a|
  {
    if a == [] {
      assert a + b == b;
    } else {
      assert (a + b)[0] == a[0] && (a + b)[1..] == a[1..] + b;
      WalkConcat(E, Apply(E, s, a[0]), a[1..], m, b, s');
    }
  }

  ghost predicate Plain(steps: seq<Step>) {
    forall i :: 0 <= i < |steps| ==> !steps[i].TrackMessage? && !steps[i].EvictMessage?
  }

  /** A schedule without tracking or eviction messages leads from s to s'. */
  ghost predicate Leads(E: Env, s: State, steps: seq<Step>, s': State) {
    Walk(E, s, steps, s') && Plain(steps)
  }

  lemma {:induction false} LeadsConcat(E: Env, s: State, a: seq<Step>, m: State, b: seq<Step>, s': State)
    requires Leads(E, s, a, m) && Leads(E, m, b, s')
    ensures Leads(E, s, a + b, s')
  {
    WalkConcat(E, s, a, m, b, s');
  }

  lemma {:induction false} LeadsStep(E: Env, s: State, a: seq<Step>, m: State, x: Step) returns (b: seq<Step>, s': State)
    requires Leads(E, s, a, m) && Enabled(E, m, x) && !x.TrackMessage? && !x.EvictMessage?
    ensures s' == Apply(E, m, x) && b == a + [x] && Leads(E, s, b, s')
  {
    s' := Apply(E, m, x);
    b := a + [x];
    WalkOne(E, m, x);
    LeadsConcat(E, s, a, m, [x], s');
  }

  /** A plain schedule is orderly for every run at every level. */
  lemma {:induction false} PlainIsOrderly(E: Env, s: State, steps: seq<Step>, key: Key, level: Level)
    requires Run(E, s, steps) && Plain(steps)
    ensures OrderlyRun(E, s, steps, key, level)
    decreases |steps|
  {
    if steps != [] {
      assert Plain(steps[1..]);
      PlainIsOrderly(E, Apply(E, s, steps[0]), steps[1..], key, level);
    }
  }

  /** The dispatcher sleeps and every created task has begun. */
  ghost predicate AtRest(s: State) {
    s.disp.Asleep? && forall t :: t in s.tasks ==> !s.tasks[t].Spawned?
  }

  /** The run is the current one of an active, unexpired subscription. */
  ghost predicate Live(E: Env, s: State, key: Key) {
    Active(E.terms(key.id), s.now) && key.interval == Interval(E.terms(key.id), s.now)
    && !PastLastInterval(E.terms(key.id), s.now)
  }

  /** There is always a task number left. */
  lemma {:induction false} FreshTask(tasks: map<nat, Task>) returns (task: nat)
    ensures task !in tasks
  {
    task := Bound(tasks.Keys);
  }

  lemma {:induction false} Bound(used: set<nat>) returns (n: nat)
    ensures forall m :: m in used ==> m < n
    decreases |used|
  {
    if used == {} {
      n := 0;
    } else {
      var x :| x in used;
      var k := Bound(used - {x});
      n := if k > x then k else x + 1;
      forall m | m in used ensures m < n { assert m == x || m in used - {x}; }
    }
  }

  // --------------------------------------------------------------------------- dispatching

  lemma {:induction false} VisitIsPossible(E: Env, s: State, id: UnionId) returns (steps: seq<Step>, s': State)
    requires AtRest(s) && id.OnChain? && id in s.tab.tracked && Active(E.terms(id), s.now)
    ensures Leads(E, s, steps, s')
    ensures s' == s.(waiting := s.waiting + 1, copies := s.records,
                     disp := AskResponses((set i | i in s.tab.tracked && i.OnChain?) - {id}, id, Interval(E.terms(id), s.now)))
  {
    var todo := set i | i in s.tab.tracked && i.OnChain?;
    steps, s' := CycleBegins(E, s);
    AskedOnVisit(E, s', id);
    steps, s' := LeadsStep(E, s, steps, s', Visit(id));
    if ProvidesPayment(E.terms(id)) { steps, s' := Payable(E, s, steps, s'); }
    assert s'.disp == AskCancelled(todo - {id}, id);
    steps, s' := LeadsStep(E, s, steps, s', CancelAnswer(false));
  }

  lemma {:induction false} CycleBegins(E: Env, s: State) returns (steps: seq<Step>, s': State)
    requires AtRest(s)
    ensures Leads(E, s, steps, s')
    ensures s' == s.(waiting := s.waiting + 1, copies := s.records,
                     disp := Loop(OnChainLoop, set id | id in s.tab.tracked && id.OnChain?))
  {
    assert Leads(E, s, [], s);
    steps, s' := LeadsStep(E, s, [], s, BeginCycle);
  }

  lemma {:induction false} Payable(E: Env, s0: State, a: seq<Step>, s: State) returns (b: seq<Step>, s': State)
    requires Leads(E, s0, a, s) && s.disp.AskPay?
    ensures Leads(E, s0, b, s') && s' == s.(disp := AskCancelled(s.disp.todo, s.disp.id))
  {
    b, s' := LeadsStep(E, s0, a, s, PayAnswer(true));
  }

  lemma {:induction false} AskedOnVisit(E: Env, s: State, id: UnionId)
    requires s.disp.Loop? && s.disp.phase == OnChainLoop && id in s.disp.todo
    ensures Apply(E, s, Visit(id)) == s.(disp :=
      if id !in s.tab.tracked then Loop(OnChainLoop, s.disp.todo - {id})
      else if ProvidesPayment(E.terms(id)) then AskPay(s.disp.todo - {id}, id)
      else AskCancelled(s.disp.todo - {id}, id))
  {
  }

  /** The state in which the run of a sleeping processor has just been started. */
  function Dispatched(s: State, run: Key, task: nat): State {
    s.(waiting := s.waiting + 1, copies := s.records,
       disp := Loop(OnChainLoop, (set id | id in s.tab.tracked && id.OnChain?) - {run.id}),
       tab := SetPending(s.tab, run, Blocked),
       tasks := s.tasks[task := Working(run)])
  }

  /** A count that does not complete the subscription. */
  function OpenCount(terms: Terms): int { terms.redundancy as int - 1 }

  lemma {:induction false} OpenCountIsOpen(E: Env, s: State)
    requires s.disp.AskResponses? && Active(E.terms(s.disp.id), s.now)
    requires s.disp.interval == Interval(E.terms(s.disp.id), s.now) && !PastLastInterval(E.terms(s.disp.id), s.now)
    ensures !Completed(E.terms(s.disp.id), WithCount(E, s, OpenCount(E.terms(s.disp.id))), s.now)
  {
  }

  lemma {:induction false} AskingIsPossible(E: Env, s: State, key: Key) returns (steps: seq<Step>, s': State)
    requires AtRest(s) && key.id.OnChain? && key.id in s.tab.tracked && Live(E, s, key)
    requires key !in s.tab.pending && AttemptCount(s.tab, key) < MAX_ATTEMPTS
    ensures Leads(E, s, steps, s')
    ensures s' == s.(waiting := s.waiting + 1, copies := s.records,
                     disp := AskResponded((set i | i in s.tab.tracked && i.OnChain?) - {key.id}, key.id, key.interval))
  {
    steps, s' := VisitIsPossible(E, s, key.id);
    OpenCountIsOpen(E, s');
    steps, s' := LeadsStep(E, s, steps, s', ResponsesAnswer(OpenCount(E.terms(key.id)), false, s.now, s.now, s.now));
  }

  /** The chain has no answer of this node yet: a task is created and starts. */
  lemma {:induction false} AskedIsStarted(E: Env, s0: State, a: seq<Step>, s: State, key: Key, task: nat)
    returns (b: seq<Step>, s': State)
    requires Leads(E, s0, a, s) && s.disp.AskResponded? && s.disp.id == key.id && s.disp.checked == key.interval
    requires task !in s.tasks && key.id in s.tab.tracked && Live(E, s, key)
    ensures Leads(E, s0, b, s')
    ensures s' == s.(disp := Loop(OnChainLoop, s.disp.todo), tab := SetPending(s.tab, key, Blocked),
                     tasks := s.tasks[task := Working(key)])
  {
    b, s' := LeadsStep(E, s0, a, s, RespondedAnswer(false, task));
    var m := s.(disp := Loop(OnChainLoop, s.disp.todo), tasks := s.tasks[task := Spawned(key.id, key.interval)]);
    assert s' == m;
    LiveStarts(E, m, key, task);
    b, s' := LeadsStep(E, s0, b, m, TaskStart(task, s.now, s.now));
    assert m.tasks[task := Working(key)] == s.tasks[task := Working(key)];
  }

  lemma {:induction false} LiveStarts(E: Env, s: State, key: Key, task: nat)
    requires task in s.tasks && s.tasks[task].Spawned? && s.tasks[task].id == key.id && key.id in s.tab.tracked && Live(E, s, key)
    ensures ApplyStart(E, s, task, s.now, s.now) == s.(tab := SetPending(s.tab, key, Blocked), tasks := s.tasks[task := Working(key)])
  {
  }

  /** A tracked, active, unexpired on-chain subscription whose current run is not pending and
      has failed less than three times can be dispatched in the next cycle. */
  lemma {:induction false} DispatchIsPossible(E: Env, s: State, key: Key, task: nat) returns (steps: seq<Step>)
    requires AtRest(s) && task !in s.tasks && key.id.OnChain? && key.id in s.tab.tracked && Live(E, s, key)
    requires key !in s.tab.pending && AttemptCount(s.tab, key) < MAX_ATTEMPTS
    ensures Leads(E, s, steps, Dispatched(s, key, task))
  {
    var s1: State;
    steps, s1 := AskingIsPossible(E, s, key);
    steps, s1 := AskedIsStarted(E, s, steps, s1, key, task);
  }

  // ----------------------------------------------------------------- the end of the cycle

  /** What other subscriptions do to a run: nothing. */
  ghost predicate SameFor(s: State, s': State, key: Key) {
    (key.id in s'.tab.tracked <==> key.id in s.tab.tracked)
    && SlotOf(s'.tab, key) == SlotOf(s.tab, key) && AttemptCount(s'.tab, key) == AttemptCount(s.tab, key)
    && (forall t :: Executing(s, t, key) ==> t in s'.tasks && s'.tasks[t] == s.tasks[t])
    && PeriodLog(s', key) == PeriodLog(s, key)
  }

  lemma {:induction false} SameForTrans(s: State, m: State, s': State, key: Key)
    requires SameFor(s, m, key) && SameFor(m, s', key)
    ensures SameFor(s, s', key)
  {
  }

  /** One id of the on-chain loop is visited: its owner cannot pay, or it is cancelled. */
  lemma {:induction false} PassOnChain(E: Env, s0: State, a: seq<Step>, s: State, id: UnionId) returns (b: seq<Step>, s': State)
    requires Leads(E, s0, a, s) && s.disp.Loop? && s.disp.phase == OnChainLoop && id in s.disp.todo && id.OnChain?
    ensures Leads(E, s0, b, s')
    ensures s' == s.(tab := s'.tab, disp := Loop(OnChainLoop, s.disp.todo - {id}))
    ensures s'.tab == Untrack(s.tab, id, false) || s'.tab == s.tab
  {
    AskedOnVisit(E, s, id);
    b, s' := LeadsStep(E, s0, a, s, Visit(id));
    if id in s.tab.tracked { b, s' := VerdictPass(E, s0, b, s'); }
  }

  lemma {:induction false} VerdictPass(E: Env, s0: State, a: seq<Step>, s: State) returns (b: seq<Step>, s': State)
    requires Leads(E, s0, a, s) && (s.disp.AskPay? || s.disp.AskCancelled?)
    ensures Leads(E, s0, b, s')
    ensures s' == s.(tab := Untrack(s.tab, s.disp.id, false), disp := Loop(OnChainLoop, s.disp.todo))
  {
    if s.disp.AskPay? {
      b, s' := LeadsStep(E, s0, a, s, PayAnswer(false));
    } else {
      b, s' := LeadsStep(E, s0, a, s, CancelAnswer(true));
    }
  }

  lemma {:induction false} PassedSame(s: State, s': State, id: UnionId)
    requires s' == s.(tab := s'.tab, disp := s'.disp) && (s'.tab == Untrack(s.tab, id, false) || s'.tab == s.tab)
    ensures forall key: Key :: key.id != id ==> SameFor(s, s', key)
  {
    forall key: Key | key.id != id ensures SameFor(s, s', key) {}
  }

  lemma {:induction false} OnChainPhaseEnds(E: Env, s0: State, a: seq<Step>, s: State) returns (b: seq<Step>, s': State)
    requires Leads(E, s0, a, s) && s.disp.Loop? && s.disp.phase == OnChainLoop
    requires forall id :: id in s.disp.todo ==> id.OnChain?
    ensures Leads(E, s0, b, s')
    ensures s' == s.(tab := s'.tab, disp := Loop(OnChainLoop, {}))
    ensures forall key: Key :: key.id !in s.disp.todo ==> SameFor(s, s', key)
    ensures forall id :: id !in s.disp.todo ==> (id in s'.tab.tracked <==> id in s.tab.tracked)
    decreases |s.disp.todo|
  {
    if s.disp.todo == {} {
      b, s' := a, s;
    } else {
      var id :| id in s.disp.todo;
      var s1: State;
      b, s1 := PassOnChain(E, s0, a, s, id);
      PassedSame(s, s1, id);
      b, s' := OnChainPhaseEnds(E, s0, b, s1);
      forall key: Key | key.id !in s.disp.todo ensures SameFor(s, s', key) { SameForTrans(s, s1, s', key); }
    }
  }

  /** Visiting the id now would not crash the dispatcher. */
  ghost predicate SafeToVisit(E: Env, s: State, id: UnionId) {
    id in s.tab.tracked && Active(E.terms(id), s.now) ==> !Trap(s, Key(id, Interval(E.terms(id), s.now)))
  }

  /** No delegated subscription would crash the dispatcher now. */
  ghost predicate NoTrap(E: Env, s: State) {
    forall id: UnionId :: id.Delegated? ==> SafeToVisit(E, s, id)
  }

  ghost predicate NoneCreated(s: State) { forall t :: t in s.tasks ==> !s.tasks[t].Spawned? }

  /** What stays while delegated ids are visited. */
  ghost predicate Onward(s: State, s': State) {
    s'.now == s.now && s'.lock == s.lock && s'.receipts == s.receipts && s'.waiting == s.waiting
    && s'.sent == s.sent && s'.closed == s.closed && NoneCreated(s')
  }

  /** Only one delegated id is touched. */
  ghost predicate Others(s: State, s': State, id: UnionId) {
    (forall i :: i != id ==> (i in s'.tab.tracked <==> i in s.tab.tracked))
    && (forall k: Key :: k.id != id ==> SlotOf(s'.tab, k) == SlotOf(s.tab, k))
    && (forall k: Key :: k.id != id ==> AttemptCount(s'.tab, k) == AttemptCount(s.tab, k))
    && (forall t :: t in s.tasks ==> t in s'.tasks && s'.tasks[t] == s.tasks[t])
  }

  lemma {:induction false} LockedPass(s: State, run: Key, todo: set<UnionId>)
    requires run.id.Delegated? && NoneCreated(s)
    ensures var s' := s.(tab := Untrack(PopAttempts(s.tab, run), run.id, true), disp := Loop(DelegatedLoop, todo));
      Onward(s, s') && Others(s, s', run.id)
  {
  }

  lemma {:induction false} BlockPass(s: State, run: Key, todo: set<UnionId>, task: nat)
    requires task !in s.tasks && NoneCreated(s)
    ensures var s' := s.(tab := SetPending(s.tab, run, Blocked), disp := Loop(DelegatedLoop, todo), tasks := s.tasks[task := Working(run)]);
      Onward(s, s') && Others(s, s', run.id)
  {
  }

  lemma {:induction false} ExpirePass(s: State, id: UnionId, todo: set<UnionId>)
    requires NoneCreated(s)
    ensures var s' := s.(tab := Untrack(s.tab, id, id.Delegated?), disp := Loop(DelegatedLoop, todo));
      Onward(s, s') && Others(s, s', id)
  {
  }

  lemma {:induction false} StartedState(E: Env, s: State, run: Key, todo: set<UnionId>, task: nat)
    requires run.id.Delegated? && run.id in s.tab.tracked && task !in s.tasks
    requires Active(E.terms(run.id), s.now) && run.interval == Interval(E.terms(run.id), s.now)
    ensures var s1 := s.(disp := Loop(DelegatedLoop, todo), tasks := s.tasks[task := Spawned(run.id, run.interval)]);
      ApplyStart(E, s1, task, s.now, s.now) ==
        if PastLastInterval(E.terms(run.id), s.now) then s.(tab := Untrack(s.tab, run.id, true), disp := Loop(DelegatedLoop, todo))
        else s.(tab := SetPending(s.tab, run, Blocked), disp := Loop(DelegatedLoop, todo), tasks := s.tasks[task := Working(run)])
  {
    var tasks := s.tasks[task := Spawned(run.id, run.interval)];
    assert tasks - {task} == s.tasks;
    assert tasks[task := Working(run)] == s.tasks[task := Working(run)];
  }

  lemma {:induction false} StartPass(E: Env, s: State, run: Key, todo: set<UnionId>, task: nat)
    requires run.id.Delegated? && run.id in s.tab.tracked && task !in s.tasks && NoneCreated(s)
    requires Active(E.terms(run.id), s.now) && run.interval == Interval(E.terms(run.id), s.now)
    ensures var s1 := s.(disp := Loop(DelegatedLoop, todo), tasks := s.tasks[task := Spawned(run.id, run.interval)]);
      var s' := ApplyStart(E, s1, task, s.now, s.now);
      Onward(s, s') && Others(s, s', run.id) && SafeToVisit(E, s', run.id) && s'.disp == Loop(DelegatedLoop, todo)
  {
    StartedState(E, s, run, todo, task);
    ExpirePass(s, run.id, todo);
    BlockPass(s, run, todo, task);
  }

  /** Where the retry check of a delegated id that is no trap can lead. */
  lemma {:induction false} CheckLeads(E: Env, s: State, todo: set<UnionId>, run: Key, task: nat)
    requires Active(E.terms(run.id), s.now) && run.interval == Interval(E.terms(run.id), s.now)
    requires run.id in s.tab.tracked && !Trap(s, run)
    ensures CheckRetriesAndPending(E, s, DelegatedLoop, todo, run.id, s.now, s.now, false, task) ==
      if AttemptCount(s.tab, run) >= MAX_ATTEMPTS then
        s.(tab := PopAttempts(s.tab, run), disp := AwaitLock(DelegatedLoop, todo, run))
      else if run in s.tab.pending then s.(disp := Loop(DelegatedLoop, todo))
      else s.(disp := Loop(DelegatedLoop, todo), tasks := s.tasks[task := Spawned(run.id, run.interval)])
  {
  }

  lemma {:induction false} LockedPassLeads(E: Env, s0: State, a: seq<Step>, s: State, todo: set<UnionId>, run: Key)
    returns (b: seq<Step>, s': State)
    requires Leads(E, s0, a, s.(tab := PopAttempts(s.tab, run), disp := AwaitLock(DelegatedLoop, todo, run)))
    requires s.lock.Free? && run.id.Delegated? && NoneCreated(s)
    ensures Leads(E, s0, b, s') && Onward(s, s') && Others(s, s', run.id) && s'.disp == Loop(DelegatedLoop, todo)
    ensures SafeToVisit(E, s', run.id)
  {
    var s1 := s.(tab := PopAttempts(s.tab, run), disp := AwaitLock(DelegatedLoop, todo, run));
    LockedPass(s, run, todo);
    b, s' := LeadsStep(E, s0, a, s1, LockedStop);
    assert s' == s.(tab := Untrack(PopAttempts(s.tab, run), run.id, true), disp := Loop(DelegatedLoop, todo));
  }

  lemma {:induction false} StartPassLeads(E: Env, s0: State, a: seq<Step>, s: State, todo: set<UnionId>, run: Key, task: nat)
    returns (b: seq<Step>, s': State)
    requires Leads(E, s0, a, s.(disp := Loop(DelegatedLoop, todo), tasks := s.tasks[task := Spawned(run.id, run.interval)]))
    requires run.id.Delegated? && run.id in s.tab.tracked && task !in s.tasks && NoneCreated(s)
    requires Active(E.terms(run.id), s.now) && run.interval == Interval(E.terms(run.id), s.now)
    ensures Leads(E, s0, b, s') && Onward(s, s') && Others(s, s', run.id) && s'.disp == Loop(DelegatedLoop, todo)
    ensures SafeToVisit(E, s', run.id)
  {
    var s1 := s.(disp := Loop(DelegatedLoop, todo), tasks := s.tasks[task := Spawned(run.id, run.interval)]);
    StartPass(E, s, run, todo, task);
    b, s' := LeadsStep(E, s0, a, s1, TaskStart(task, s.now, s.now));
  }

  /** The retry check of a delegated id that is no trap: it goes on, is untracked under the
      lock, or starts its run. */
  lemma {:induction false} PassCheck(E: Env, s0: State, a: seq<Step>, s: State, s1: State, todo: set<UnionId>, run: Key, task: nat)
    returns (b: seq<Step>, s': State)
    requires Leads(E, s0, a, s1)
    requires s.lock.Free? && task !in s.tasks && NoneCreated(s)
    requires Active(E.terms(run.id), s.now) && run.interval == Interval(E.terms(run.id), s.now)
    requires run.id in s.tab.tracked && run.id.Delegated? && !Trap(s, run)
    requires s1 == CheckRetriesAndPending(E, s, DelegatedLoop, todo, run.id, s.now, s.now, false, task)
    ensures Leads(E, s0, b, s') && Onward(s, s') && Others(s, s', run.id) && s'.disp == Loop(DelegatedLoop, todo)
    ensures SafeToVisit(E, s', run.id)
  {
    CheckLeads(E, s, todo, run, task);
    if AttemptCount(s.tab, run) >= MAX_ATTEMPTS {
      b, s' := LockedPassLeads(E, s0, a, s, todo, run);
    } else if run in s.tab.pending {
      b, s' := a, s1;
    } else {
      b, s' := StartPassLeads(E, s0, a, s, todo, run, task);
    }
  }

  /** One delegated id is visited up to its retry check. */
  lemma {:induction false} ReachCheck(E: Env, s0: State, a: seq<Step>, s: State, id: UnionId, task: nat) returns (b: seq<Step>, m: State, s': State)
    requires Leads(E, s0, a, s) && s.disp.Loop? && s.disp.phase == DelegatedLoop && id in s.disp.todo
    requires id in s.tab.tracked && task !in s.tasks && Active(E.terms(id), s.now)
    ensures Leads(E, s0, b, s') && m == s.(disp := m.disp)
    ensures s' == CheckRetriesAndPending(E, m, DelegatedLoop, s.disp.todo - {id}, id, s.now, s.now, false, task)
  {
    var run := Key(id, Interval(E.terms(id), s.now));
    b, s' := LeadsStep(E, s0, a, s, VisitDelegated(id, s.now, s.now, task));
    m := s;
    if run in s.tab.pending && s.tab.pending[run].Tx? {
      m := s';
      b, s' := LeadsStep(E, s0, b, m, ReceiptAnswer(false, s.now, s.now, task));
    }
  }

  lemma {:induction false} PassDelegated(E: Env, s0: State, a: seq<Step>, s: State, id: UnionId) returns (b: seq<Step>, s': State)
    requires Leads(E, s0, a, s) && s.disp.Loop? && s.disp.phase == DelegatedLoop && id in s.disp.todo
    requires id.Delegated? && id in s.tab.tracked && s.lock.Free? && NoneCreated(s)
    requires SafeToVisit(E, s, id)
    ensures Leads(E, s0, b, s') && Onward(s, s') && Others(s, s', id) && s'.disp == Loop(DelegatedLoop, s.disp.todo - {id})
    ensures SafeToVisit(E, s', id)
  {
    var task := FreshTask(s.tasks);
    if Active(E.terms(id), s.now) {
      var run := Key(id, Interval(E.terms(id), s.now));
      assert !Trap(s, run);
      var m, s1: State;
      b, m, s1 := ReachCheck(E, s0, a, s, id, task);
      b, s' := PassCheck(E, s0, b, m, s1, s.disp.todo - {id}, run, task);
    } else {
      b, s' := LeadsStep(E, s0, a, s, VisitDelegated(id, s.now, s.now, task));
    }
  }

  lemma {:induction false} OthersSame(s: State, s': State, id: UnionId)
    requires Onward(s, s') && Others(s, s', id)
    ensures forall key: Key :: key.id != id ==> SameFor(s, s', key)
  {
    forall key: Key | key.id != id ensures SameFor(s, s', key) {
      assert PeriodLog(s', key) == PeriodLog(s, key);
    }
  }

  lemma {:induction false} OthersNoTrap(E: Env, s: State, s': State, id: UnionId)
    requires Onward(s, s') && Others(s, s', id) && NoTrap(E, s) && SafeToVisit(E, s', id)
    ensures NoTrap(E, s')
  {
    forall i: UnionId | i.Delegated? ensures SafeToVisit(E, s', i) {
      if i != id && i in s'.tab.tracked && Active(E.terms(i), s'.now) {
        var run := Key(i, Interval(E.terms(i), s.now));
        assert SafeToVisit(E, s, i) && SlotOf(s'.tab, run) == SlotOf(s.tab, run);
      }
    }
  }

  lemma {:induction false} DelegatedPhaseEnds(E: Env, s0: State, a: seq<Step>, s: State) returns (b: seq<Step>, s': State)
    requires Leads(E, s0, a, s) && s.disp.Loop? && s.disp.phase == DelegatedLoop
    requires forall id :: id in s.disp.todo ==> id.Delegated? && id in s.tab.tracked
    requires s.lock.Free? && NoneCreated(s) && NoTrap(E, s)
    ensures Leads(E, s0, b, s') && Onward(s, s') && s'.disp == Loop(DelegatedLoop, {}) && NoTrap(E, s')
    ensures forall key: Key :: key.id.OnChain? ==> SameFor(s, s', key)
    decreases |s.disp.todo|
  {
    if s.disp.todo == {} {
      b, s' := a, s;
    } else {
      var id :| id in s.disp.todo;
      var s1: State;
      b, s1 := PassDelegated(E, s0, a, s, id);
      OthersSame(s, s1, id);
      OthersNoTrap(E, s, s1, id);
      b, s' := DelegatedPhaseEnds(E, s0, b, s1);
      forall key: Key | key.id.OnChain? ensures SameFor(s, s', key) { SameForTrans(s, s1, s', key); }
    }
  }

  lemma {:induction false} NoTrapStays(E: Env, s: State, s': State)
    requires s'.now == s.now && NoTrap(E, s)
    requires forall key: Key :: key.id.Delegated? ==> SameFor(s, s', key)
    ensures NoTrap(E, s')
  {
    forall id: UnionId | id.Delegated? ensures SafeToVisit(E, s', id) {
      if Active(E.terms(id), s.now) { assert SafeToVisit(E, s, id) && SameFor(s, s', Key(id, Interval(E.terms(id), s.now))); }
    }
  }

  lemma {:induction false} ToDelegated(E: Env, s0: State, a: seq<Step>, s: State) returns (b: seq<Step>, s': State)
    requires Leads(E, s0, a, s) && s.disp == Loop(OnChainLoop, {})
    ensures Leads(E, s0, b, s')
    ensures s' == s.(disp := Loop(DelegatedLoop, set id | id in s.tab.tracked && id.Delegated?))
  {
    b, s' := LeadsStep(E, s0, a, s, NextPhase);
  }

  lemma {:induction false} SecondPhase(E: Env, s0: State, a: seq<Step>, s: State) returns (b: seq<Step>, s': State)
    requires Leads(E, s0, a, s) && s.disp == Loop(OnChainLoop, {}) && s.lock.Free? && NoneCreated(s) && NoTrap(E, s)
    ensures Leads(E, s0, b, s') && s'.disp.Asleep? && Onward(s, s') && NoTrap(E, s')
    ensures forall key: Key :: key.id.OnChain? ==> SameFor(s, s', key)
  {
    var s1, s2: State;
    b, s1 := ToDelegated(E, s0, a, s);
    NoTrapMoves(E, s, s1.disp);
    b, s2 := DelegatedPhaseEnds(E, s0, b, s1);
    b, s' := ToSleep(E, s0, b, s2);
    NoTrapMoves(E, s2, Asleep);
    forall key: Key | key.id.OnChain? ensures SameFor(s, s', key) { assert SameFor(s1, s2, key); }
  }

  lemma {:induction false} ToSleep(E: Env, s0: State, a: seq<Step>, s: State) returns (b: seq<Step>, s': State)
    requires Leads(E, s0, a, s) && s.disp == Loop(DelegatedLoop, {})
    ensures Leads(E, s0, b, s') && s' == s.(disp := Asleep)
  {
    b, s' := LeadsStep(E, s0, a, s, EndCycle);
  }

  lemma {:induction false} NoTrapMoves(E: Env, s: State, d: Dispatcher)
    requires NoTrap(E, s)
    ensures NoTrap(E, s.(disp := d))
  {
    forall id: UnionId | id.Delegated? ensures SafeToVisit(E, s.(disp := d), id) { assert SafeToVisit(E, s, id); }
  }

  /** A cycle in its on-chain phase can come to its end without touching the runs of an on-chain
      id it has already visited. */
  lemma {:induction false} CycleEnds(E: Env, s0: State, a: seq<Step>, s: State, key: Key) returns (b: seq<Step>, s': State)
    requires Leads(E, s0, a, s) && s.disp.Loop? && s.disp.phase == OnChainLoop && s.lock.Free?
    requires NoneCreated(s) && NoTrap(E, s) && (forall id :: id in s.disp.todo ==> id.OnChain?)
    requires key.id.OnChain? && key.id !in s.disp.todo
    ensures Leads(E, s0, b, s') && s'.disp.Asleep? && Onward(s, s') && NoTrap(E, s') && SameFor(s, s', key)
  {
    var s1: State;
    b, s1 := OnChainPhaseEnds(E, s0, a, s);
    NoTrapStays(E, s, s1);
    b, s' := SecondPhase(E, s0, b, s1);
    SameForTrans(s, s1, s', key);
  }
}
