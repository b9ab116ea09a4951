/** What every run of the chain processor protocol keeps, whatever is tracked, untracked or
    evicted: where ids, runs, tasks, the lock and the dispatcher can stand. */
module ProcessorShape {
  import opened Subscriptions
  import opened ProcessorTables
  import opened ProcessorProtocol

  /** The interval of an id has started: it is active, and `k` is not in the future. */
  ghost predicate HasStarted(E: Env, now: real, id: UnionId, k: int) {
    Active(E.terms(id), now) && k <= Interval(E.terms(id), now)
  }

  ghost predicate IdsOk(s: State) {
    s.tab.tracked <= s.ever
    && (forall id :: id in s.ever && id.OnChain? ==> id.id > 0)
    && (forall k :: k in s.tab.attempts ==> k.id in s.ever)
    && (forall k :: k in s.forced ==> k.id.Delegated?)
  }

  ghost predicate PendingOk(E: Env, s: State) {
    forall k :: k in s.tab.pending ==> k.id in s.ever && HasStarted(E, s.now, k.id, k.interval)
  }

  /** The interval a task is about. */
  function TaskInterval(task: Task): int {
    if task.Spawned? then task.checked else task.key.interval
  }

  ghost predicate TasksOk(E: Env, s: State) {
    forall t :: t in s.tasks ==>
      TaskId(s.tasks[t]) in s.ever && HasStarted(E, s.now, TaskId(s.tasks[t]), TaskInterval(s.tasks[t]))
  }

  /** No two created tasks share an id. */
  ghost predicate SpawnedOk(s: State) {
    forall t, u :: t in s.tasks && u in s.tasks && t != u && s.tasks[t].Spawned? && s.tasks[u].Spawned? ==>
      s.tasks[t].id != s.tasks[u].id
  }

  ghost predicate ListedOk(s: State, k: Key) {
    s.lock.Pruning? && k in s.lock.snap && s.lock.snap[k].Tx? && k.id in s.ever
  }

  ghost predicate Failed(s: State, k: Key) {
    ListedOk(s, k) && s.lock.snap[k].hash in s.receipts && !s.receipts[s.lock.snap[k].hash]
  }

  ghost predicate LockOk(s: State) {
    s.lock.Pruning? ==>
      (forall k :: k in s.lock.todo ==> ListedOk(s, k) && k !in s.lock.failed)
      && (forall k :: k in s.lock.failed ==> Failed(s, k))
      && Distinct(s.lock.failed)
  }

  ghost predicate NoneSpawned(s: State, ids: set<UnionId>) {
    forall t :: t in s.tasks && s.tasks[t].Spawned? ==> s.tasks[t].id !in ids
  }

  /** The ids a phase still has to visit; no created task is for one of them, and delegated
      ids cannot be untracked before their visit. */
  ghost predicate TodoOk(s: State, phase: Phase, todo: set<UnionId>) {
    (forall id :: id in todo ==> id in s.ever && (id.Delegated? <==> phase == DelegatedLoop))
    && (phase == DelegatedLoop ==> todo <= s.tab.tracked)
    && (phase == OnChainLoop ==> forall t :: t in s.tasks && s.tasks[t].Spawned? ==> s.tasks[t].id.OnChain?)
    && NoneSpawned(s, todo)
  }

  ghost predicate CurrentOk(s: State, phase: Phase, todo: set<UnionId>, id: UnionId) {
    TodoOk(s, phase, todo) && id !in todo && id in s.ever && NoneSpawned(s, {id})
    && (id.Delegated? <==> phase == DelegatedLoop)
  }

  ghost predicate DispOk(E: Env, s: State) {
    match s.disp
    case Asleep => true
    case Loop(phase, todo) => TodoOk(s, phase, todo)
    case AskPay(todo, id) => CurrentOk(s, OnChainLoop, todo, id) && ProvidesPayment(E.terms(id))
    case AskCancelled(todo, id) => CurrentOk(s, OnChainLoop, todo, id)
    case AskResponses(todo, id, interval) =>
      CurrentOk(s, OnChainLoop, todo, id) && HasStarted(E, s.now, id, interval)
    case AskResponded(todo, id, checked) =>
      CurrentOk(s, OnChainLoop, todo, id) && HasStarted(E, s.now, id, checked)
    case AskReceipt(todo, id, _) =>
      CurrentOk(s, DelegatedLoop, todo, id) && id in s.tab.tracked && Active(E.terms(id), s.now)
    case AwaitLock(phase, todo, key) => CurrentOk(s, phase, todo, key.id)
    case Died => true
    case Crashed => true
  }

  ghost predicate Core(E: Env, s: State) {
    IdsOk(s) && PendingOk(E, s) && TasksOk(E, s) && SpawnedOk(s) && DispOk(E, s)
  }

  ghost predicate Shape(E: Env, s: State) { Core(E, s) && LockOk(s) }

  // ------------------------------------------------------------------------------ frames

  lemma {:induction false} StartedStays(E: Env, a: real, b: real, id: UnionId, k: int)
    requires a <= b && HasStarted(E, a, id, k)
    ensures HasStarted(E, b, id, k)
  {
    IntervalMonotone(E.terms(id), a, b);
  }

  ghost predicate Grows(s: State, s': State) { s.now <= s'.now && s.ever <= s'.ever }

  /** Every task of s' was there, for the same id and interval, and is created only if it was. */
  ghost predicate OnlyOldTasks(s: State, s': State) {
    forall t :: t in s'.tasks ==>
      t in s.tasks && TaskId(s'.tasks[t]) == TaskId(s.tasks[t]) && TaskInterval(s'.tasks[t]) == TaskInterval(s.tasks[t])
      && (s'.tasks[t].Spawned? ==> s.tasks[t].Spawned?)
  }

  ghost predicate NoNewSpawned(s: State, s': State) {
    forall t :: t in s'.tasks && s'.tasks[t].Spawned? ==> t in s.tasks && s'.tasks[t] == s.tasks[t]
  }

  /** The dispatcher relies on this delegated id being tracked. */
  ghost predicate Needs(d: Dispatcher, id: UnionId) {
    match d
    case Loop(phase, todo) => phase == DelegatedLoop && id in todo
    case AskReceipt(todo, i, _) => id in todo || id == i
    case AwaitLock(phase, todo, _) => phase == DelegatedLoop && id in todo
    case _ => false
  }

  lemma {:induction false} TasksFrame(E: Env, s: State, s': State)
    requires TasksOk(E, s) && SpawnedOk(s) && Grows(s, s') && OnlyOldTasks(s, s')
    ensures TasksOk(E, s') && SpawnedOk(s')
  {
    forall t | t in s'.tasks
      ensures TaskId(s'.tasks[t]) in s'.ever && HasStarted(E, s'.now, TaskId(s'.tasks[t]), TaskInterval(s'.tasks[t])) {
      StartedStays(E, s.now, s'.now, TaskId(s.tasks[t]), TaskInterval(s.tasks[t]));
    }
  }

  lemma {:induction false} PendingFrame(E: Env, s: State, s': State)
    requires PendingOk(E, s) && Grows(s, s') && forall k :: k in s'.tab.pending ==> k in s.tab.pending
    ensures PendingOk(E, s')
  {
    forall k | k in s'.tab.pending ensures k.id in s'.ever && HasStarted(E, s'.now, k.id, k.interval) {
      StartedStays(E, s.now, s'.now, k.id, k.interval);
    }
  }

  lemma {:induction false} TodoFrame(s: State, s': State, phase: Phase, todo: set<UnionId>)
    requires TodoOk(s, phase, todo) && Grows(s, s') && NoNewSpawned(s, s')
    requires phase == DelegatedLoop ==> todo <= s'.tab.tracked
    ensures TodoOk(s', phase, todo)
  {
  }

  lemma {:induction false} DispFrame(E: Env, s: State, s': State)
    requires DispOk(E, s) && Grows(s, s') && NoNewSpawned(s, s') && s'.disp == s.disp
    requires forall id :: Needs(s.disp, id) ==> id in s'.tab.tracked
    ensures DispOk(E, s')
  {
    match s.disp
    case Loop(phase, todo) =>
      assert phase == DelegatedLoop ==> forall id :: id in todo ==> Needs(s.disp, id);
      TodoFrame(s, s', phase, todo);
    case AskPay(todo, _) => TodoFrame(s, s', OnChainLoop, todo);
    case AskCancelled(todo, _) => TodoFrame(s, s', OnChainLoop, todo);
    case AskResponses(todo, id, k) =>
      TodoFrame(s, s', OnChainLoop, todo);
      StartedStays(E, s.now, s'.now, id, k);
    case AskResponded(todo, id, k) =>
      TodoFrame(s, s', OnChainLoop, todo);
      StartedStays(E, s.now, s'.now, id, k);
    case AskReceipt(todo, id, _) =>
      assert forall i :: i in todo || i == id ==> Needs(s.disp, i);
      TodoFrame(s, s', DelegatedLoop, todo);
      IntervalMonotone(E.terms(id), s.now, s'.now);
    case AwaitLock(phase, todo, _) =>
      assert phase == DelegatedLoop ==> forall id :: id in todo ==> Needs(s.disp, id);
      TodoFrame(s, s', phase, todo);
    case _ =>
  }

  lemma {:induction false} LockFrame(s: State, s': State)
    requires LockOk(s) && Grows(s, s') && s'.lock == s.lock
    requires forall h :: h in s.receipts ==> h in s'.receipts && s'.receipts[h] == s.receipts[h]
    ensures LockOk(s')
  {
    if s.lock.Pruning? {
      forall k | k in s.lock.todo ensures ListedOk(s', k) { assert ListedOk(s, k); }
      forall k | k in s.lock.failed ensures Failed(s', k) { assert Failed(s, k); }
    }
  }

  ghost predicate IsTaskStep(step: Step) {
    step.TaskStart? || step.TaskSimulationFails? || step.TaskContainerFails? || step.TaskSends?
    || step.TaskDeliveryFails? || step.TaskRaises? || step.TaskFinishes?
  }

  ghost predicate IsPruneStep(step: Step) {
    step.PruneAcquire? || step.PruneReceipt? || step.PruneFinish? || step.PruneRaises?
  }

  ghost predicate IsWorldStep(step: Step) {
    step.Tick? || step.Mine? || step.TrackMessage? || step.EvictMessage?
  }

  // ---------------------------------------------------------------- changes of one field

  lemma {:induction false} NeededIsTracked(E: Env, s: State, id: UnionId)
    requires DispOk(E, s) && Needs(s.disp, id)
    ensures id in s.tab.tracked && id.Delegated? && NoneSpawned(s, {id})
  {
  }

  lemma {:induction false} ClockShape(E: Env, s: State, now: real)
    requires Shape(E, s) && s.now <= now
    ensures Shape(E, s.(now := now))
  {
    var s' := s.(now := now);
    forall id | Needs(s.disp, id) ensures id in s'.tab.tracked { NeededIsTracked(E, s, id); }
    TasksFrame(E, s, s');
    PendingFrame(E, s, s');
    DispFrame(E, s, s');
    LockFrame(s, s');
  }

  lemma {:induction false} DropShape(E: Env, s: State, task: nat)
    requires Shape(E, s)
    ensures Shape(E, DropTask(s, task))
  {
    var s' := DropTask(s, task);
    forall id | Needs(s.disp, id) ensures id in s'.tab.tracked { NeededIsTracked(E, s, id); }
    TasksFrame(E, s, s');
    PendingFrame(E, s, s');
    DispFrame(E, s, s');
    LockFrame(s, s');
  }

  /** The tables lose entries and ids the dispatcher does not need. */
  lemma {:induction false} TablesShape(E: Env, s: State, tab: Tables)
    requires Shape(E, s) && tab.tracked <= s.tab.tracked
    requires forall id :: Needs(s.disp, id) && id in s.tab.tracked ==> id in tab.tracked
    requires forall k :: k in tab.pending ==> k in s.tab.pending
    requires forall k :: k in tab.attempts ==> k.id in s.ever
    ensures Shape(E, s.(tab := tab))
  {
    var s' := s.(tab := tab);
    forall id | Needs(s.disp, id) ensures id in s'.tab.tracked { NeededIsTracked(E, s, id); }
    TasksFrame(E, s, s');
    PendingFrame(E, s, s');
    DispFrame(E, s, s');
    LockFrame(s, s');
  }

  lemma {:induction false} UntrackShape(E: Env, s: State, id: UnionId)
    requires Shape(E, s) && !Needs(s.disp, id)
    ensures Shape(E, s.(tab := Untrack(s.tab, id, id.Delegated?)))
  {
    TablesShape(E, s, Untrack(s.tab, id, id.Delegated?));
  }

  lemma {:induction false} EntryShape(E: Env, s: State, key: Key, e: Entry)
    requires Shape(E, s) && key.id in s.ever && HasStarted(E, s.now, key.id, key.interval)
    ensures Shape(E, s.(tab := SetPending(s.tab, key, e)))
  {
    var s' := s.(tab := SetPending(s.tab, key, e));
    forall id | Needs(s.disp, id) ensures id in s'.tab.tracked { NeededIsTracked(E, s, id); }
    TasksFrame(E, s, s');
    DispFrame(E, s, s');
    LockFrame(s, s');
  }

  /** A task past its first segment, on a run that has started. */
  lemma {:induction false} WorkShape(E: Env, s: State, task: nat, work: Task)
    requires Shape(E, s) && !work.Spawned?
    requires TaskId(work) in s.ever && HasStarted(E, s.now, TaskId(work), TaskInterval(work))
    ensures Shape(E, s.(tasks := s.tasks[task := work]))
  {
    var s' := s.(tasks := s.tasks[task := work]);
    forall id | Needs(s.disp, id) ensures id in s'.tab.tracked { NeededIsTracked(E, s, id); }
    DispFrame(E, s, s');
    LockFrame(s, s');
  }

  lemma {:induction false} LogShape(E: Env, s: State, s': State)
    requires Shape(E, s) && s' == s.(sent := s'.sent, closed := s'.closed, forced := s'.forced, copies := s'.copies, waiting := s'.waiting)
    requires forall k :: k in s'.forced ==> k.id.Delegated?
    ensures Shape(E, s')
  {
    forall id | Needs(s.disp, id) ensures id in s'.tab.tracked { NeededIsTracked(E, s, id); }
    TasksFrame(E, s, s');
    PendingFrame(E, s, s');
    DispFrame(E, s, s');
    LockFrame(s, s');
  }

  lemma {:induction false} TrackedShape(E: Env, s: State, id: UnionId, record: Record)
    requires Shape(E, s) && (id.OnChain? ==> id.id > 0)
    ensures Shape(E, s.(tab := Track(s.tab, id), records := s.records[id := record], ever := s.ever + {id}))
  {
    var s' := s.(tab := Track(s.tab, id), records := s.records[id := record], ever := s.ever + {id});
    forall i | Needs(s.disp, i) ensures i in s'.tab.tracked { NeededIsTracked(E, s, i); }
    TasksFrame(E, s, s');
    PendingFrame(E, s, s');
    DispFrame(E, s, s');
    LockFrame(s, s');
  }

  lemma {:induction false} TrackShape(E: Env, s: State, id: UnionId, record: Record)
    requires Shape(E, s) && (id.OnChain? ==> id.id > 0)
    ensures Shape(E, ApplyTrack(s, id, record))
  {
    TrackedShape(E, s, id, record);
    LogShape(E, s.(tab := Track(s.tab, id), records := s.records[id := record], ever := s.ever + {id}), ApplyTrack(s, id, record));
  }

  lemma {:induction false} MineShape(E: Env, s: State, hash: nat, ok: bool)
    requires Shape(E, s) && hash !in s.receipts
    ensures Shape(E, s.(receipts := s.receipts[hash := ok]))
  {
    var s' := s.(receipts := s.receipts[hash := ok]);
    forall id | Needs(s.disp, id) ensures id in s'.tab.tracked { NeededIsTracked(E, s, id); }
    TasksFrame(E, s, s');
    PendingFrame(E, s, s');
    DispFrame(E, s, s');
    LockFrame(s, s');
  }

  lemma {:induction false} LockShape(E: Env, s: State, s': State)
    requires Shape(E, s) && s' == s.(lock := s'.lock, waiting := s'.waiting) && LockOk(s')
    ensures Shape(E, s')
  {
    forall id | Needs(s.disp, id) ensures id in s'.tab.tracked { NeededIsTracked(E, s, id); }
    TasksFrame(E, s, s');
    PendingFrame(E, s, s');
    DispFrame(E, s, s');
  }

  lemma {:induction false} MoveShape(E: Env, s: State, d: Dispatcher)
    requires Shape(E, s) && DispOk(E, s.(disp := d))
    ensures Shape(E, s.(disp := d))
  {
    var s' := s.(disp := d);
    TasksFrame(E, s, s');
    PendingFrame(E, s, s');
    LockFrame(s, s');
  }

  /** A created task is for an id that has none, and that the dispatcher is not visiting. */
  lemma {:induction false} SpawnShape(E: Env, s: State, task: nat, id: UnionId, checked: int)
    requires Shape(E, s) && task !in s.tasks && NoneSpawned(s, {id}) && id in s.ever
    requires HasStarted(E, s.now, id, checked)
    requires s.disp.Loop? && id !in s.disp.todo && (id.OnChain? <==> s.disp.phase == OnChainLoop)
    ensures Shape(E, s.(tasks := s.tasks[task := Spawned(id, checked)]))
  {
    var s' := s.(tasks := s.tasks[task := Spawned(id, checked)]);
    assert TodoOk(s', s.disp.phase, s.disp.todo);
    LockFrame(s, s');
  }

  // --------------------------------------------------------------------- world and prunes

  lemma {:induction false} EvictMessageShape(E: Env, s: State, key: Key)
    requires Shape(E, s) && Enabled(E, s, EvictMessage(key))
    ensures Shape(E, Apply(E, s, EvictMessage(key)))
  {
    var s1 := s.(tab := PopAttempts(Release(s.tab, key), key));
    TablesShape(E, s, s1.tab);
    LogShape(E, s1, Apply(E, s, EvictMessage(key)));
  }

  lemma {:induction false} WorldKeepsShape(E: Env, s: State, step: Step)
    requires Shape(E, s) && Enabled(E, s, step) && IsWorldStep(step)
    ensures Shape(E, Apply(E, s, step))
  {
    match step
    case Tick(t) => ClockShape(E, s, t);
    case Mine(hash, ok) => MineShape(E, s, hash, ok);
    case TrackMessage(id, record) => TrackShape(E, s, id, record);
    case EvictMessage(key) => EvictMessageShape(E, s, key);
  }

  lemma {:induction false} EvictAllFrame(tab: Tables, failed: seq<Key>)
    ensures var out := EvictAll(tab, failed);
      && out.tracked == tab.tracked
      && (forall k :: k in out.pending ==> k in tab.pending && out.pending[k] == tab.pending[k])
      && (forall k :: k in out.attempts ==> k in tab.attempts || k in failed)
    decreases |failed|
  {
    if failed != [] && !EvictionMisses(tab, failed[0]) {
      EvictAllFrame(EvictOne(tab, failed[0]), failed[1..]);
    }
  }

  /** A key leaves the questions, and joins the failures if its transaction failed. */
  function Asked(lock: Lock, key: Key, fails: bool): Lock
    requires lock.Pruning?
  {
    lock.(todo := lock.todo - {key}, failed := if fails then lock.failed + [key] else lock.failed)
  }

  lemma {:induction false} AskedOk(s: State, key: Key, fails: bool)
    requires LockOk(s) && s.lock.Pruning? && key in s.lock.todo && (fails ==> Failed(s, key))
    ensures LockOk(s.(lock := Asked(s.lock, key, fails)))
  {
    var s' := s.(lock := Asked(s.lock, key, fails));
    forall k | k in s'.lock.todo ensures ListedOk(s', k) && k !in s'.lock.failed { assert ListedOk(s, k); }
    forall k | k in s'.lock.failed ensures Failed(s', k) { assert Failed(s, k); }
  }

  lemma {:induction false} AskedShape(E: Env, s: State, key: Key, fails: bool)
    requires Shape(E, s) && s.lock.Pruning? && key in s.lock.todo && (fails ==> Failed(s, key))
    ensures Shape(E, s.(lock := Asked(s.lock, key, fails)))
  {
    AskedOk(s, key, fails);
    LockShape(E, s, s.(lock := Asked(s.lock, key, fails)));
  }

  lemma {:induction false} SuccessShape(E: Env, s: State, key: Key)
    requires Shape(E, s) && s.lock.Pruning? && key in s.lock.todo
    ensures Shape(E, s.(tab := PopAttempts(s.tab, key), lock := Asked(s.lock, key, false)))
  {
    TablesShape(E, s, PopAttempts(s.tab, key));
    AskedShape(E, s.(tab := PopAttempts(s.tab, key)), key, false);
  }

  lemma {:induction false} ReceiptShape(E: Env, s: State, key: Key, found: bool)
    requires Shape(E, s) && Enabled(E, s, PruneReceipt(key, found))
    ensures Shape(E, ApplyReceipt(s, key, found))
  {
    assert ListedOk(s, key);
    if found && s.receipts[s.lock.snap[key].hash] {
      SuccessShape(E, s, key);
    } else {
      AskedShape(E, s, key, found);
    }
  }

  lemma {:induction false} AcquireShape(E: Env, s: State)
    requires Shape(E, s) && Enabled(E, s, PruneAcquire)
    ensures Shape(E, Apply(E, s, PruneAcquire))
  {
    var s' := Apply(E, s, PruneAcquire);
    forall k | k in s'.lock.todo ensures ListedOk(s', k) && k !in s'.lock.failed {}
    LockShape(E, s, s');
  }

  lemma {:induction false} FinishPassShape(E: Env, s: State)
    requires Shape(E, s) && Enabled(E, s, PruneFinish)
    ensures Shape(E, Apply(E, s, PruneFinish))
  {
    var tab := EvictAll(s.tab, s.lock.failed);
    EvictAllFrame(s.tab, s.lock.failed);
    forall k | k in tab.attempts ensures k.id in s.ever { assert k in s.lock.failed ==> Failed(s, k); }
    TablesShape(E, s, tab);
    LockShape(E, s.(tab := tab), Apply(E, s, PruneFinish));
  }

  lemma {:induction false} PruneKeepsShape(E: Env, s: State, step: Step)
    requires Shape(E, s) && Enabled(E, s, step) && IsPruneStep(step)
    ensures Shape(E, Apply(E, s, step))
  {
    match step
    case PruneAcquire => AcquireShape(E, s);
    case PruneReceipt(key, found) => ReceiptShape(E, s, key, found);
    case PruneFinish => FinishPassShape(E, s);
    case PruneRaises => LockShape(E, s, s.(lock := Free));
  }

  // ------------------------------------------------------------------------------- tasks

  /** Untracking through the id field of the subscription object: nothing for a delegated one,
      whose field is -1. */
  lemma {:induction false} StopOwnExact(E: Env, s: State, id: UnionId)
    requires IdsOk(s) && PendingOk(E, s)
    ensures StopOwn(s.tab, id) == if id.OnChain? then Untrack(s.tab, id, false) else s.tab
  {
    if id.Delegated? {
      assert forall k :: k in s.tab.pending ==> k.id != OnChain(-1);
      assert StopOwn(s.tab, id).pending == s.tab.pending;
    }
  }

  lemma {:induction false} StopOwnShape(E: Env, s: State, id: UnionId)
    requires Shape(E, s)
    ensures Shape(E, s.(tab := StopOwn(s.tab, id)))
  {
    StopOwnExact(E, s, id);
    if id.OnChain? {
      if Needs(s.disp, id) { NeededIsTracked(E, s, id); }
      UntrackShape(E, s, id);
    } else {
      assert s.(tab := s.tab) == s;
    }
  }

  lemma {:induction false} StartShape(E: Env, s: State, task: nat, t1: real, t2: real)
    requires Shape(E, s) && Enabled(E, s, TaskStart(task, t1, t2))
    ensures Shape(E, ApplyStart(E, s, task, t1, t2))
  {
    var id, s1 := s.tasks[task].id, s.(now := t2);
    ClockShape(E, s, t2);
    IntervalMonotone(E.terms(id), s.now, t1);
    if id !in s.tab.tracked {
      DropShape(E, s1, task);
    } else if PastLastInterval(E.terms(id), t2) {
      if Needs(s.disp, id) { NeededIsTracked(E, s, id); }
      UntrackShape(E, s1, id);
      DropShape(E, s1.(tab := Untrack(s.tab, id, id.Delegated?)), task);
    } else {
      var key := Key(id, Interval(E.terms(id), t1));
      StartedStays(E, t1, t2, id, key.interval);
      EntryShape(E, s1, key, Blocked);
      WorkShape(E, s1.(tab := SetPending(s.tab, key, Blocked)), task, Working(key));
    }
  }

  lemma {:induction false} ContainerShape(E: Env, s: State, task: nat, empty: bool)
    requires Shape(E, s) && Enabled(E, s, TaskContainerFails(task, empty))
    ensures Shape(E, ApplyContainerFailure(E, s, task, empty))
  {
    var key := s.tasks[task].key;
    var s1 := s.(tab := Release(s.tab, key));
    DropShape(E, s, task);
    TablesShape(E, s, s1.tab);
    DropShape(E, s1, task);
    StopOwnShape(E, s1, key.id);
    DropShape(E, s1.(tab := StopOwn(s1.tab, key.id)), task);
  }

  lemma {:induction false} SendShape(E: Env, s: State, task: nat, hash: nat)
    requires Shape(E, s) && Enabled(E, s, TaskSends(task, hash))
    ensures Shape(E, Apply(E, s, TaskSends(task, hash)))
  {
    var key := s.tasks[task].key;
    WorkShape(E, s, task, Submitted(key, hash));
    LogShape(E, s.(tasks := s.tasks[task := Submitted(key, hash)]), Apply(E, s, TaskSends(task, hash)));
  }

  lemma {:induction false} FinishShape(E: Env, s: State, task: nat)
    requires Shape(E, s) && Enabled(E, s, TaskFinishes(task))
    ensures Shape(E, Apply(E, s, TaskFinishes(task)))
  {
    var key, hash := s.tasks[task].key, s.tasks[task].hash;
    EntryShape(E, s, key, Tx(hash));
    DropShape(E, s.(tab := SetPending(s.tab, key, Tx(hash))), task);
  }

  lemma {:induction false} StopAndDropShape(E: Env, s: State, task: nat)
    requires Shape(E, s) && task in s.tasks
    ensures Shape(E, DropTask(s.(tab := StopOwn(s.tab, TaskId(s.tasks[task]))), task))
  {
    StopOwnShape(E, s, TaskId(s.tasks[task]));
    DropShape(E, s.(tab := StopOwn(s.tab, TaskId(s.tasks[task]))), task);
  }

  lemma {:induction false} TaskKeepsShape(E: Env, s: State, step: Step)
    requires Shape(E, s) && Enabled(E, s, step) && IsTaskStep(step)
    ensures Shape(E, Apply(E, s, step))
  {
    match step
    case TaskStart(task, t1, t2) => StartShape(E, s, task, t1, t2);
    case TaskSimulationFails(task) => StopAndDropShape(E, s, task);
    case TaskContainerFails(task, empty) => ContainerShape(E, s, task, empty);
    case TaskSends(task, hash) => SendShape(E, s, task, hash);
    case TaskDeliveryFails(task) => StopAndDropShape(E, s, task); DropShape(E, s, task);
    case TaskRaises(task) => DropShape(E, s, task);
    case TaskFinishes(task) => FinishShape(E, s, task);
  }

  // ---------------------------------------------------------------------- the dispatcher

  lemma {:induction false} UntrackAndLoopShape(E: Env, s: State, id: UnionId, phase: Phase, todo: set<UnionId>)
    requires Shape(E, s) && CurrentOk(s, phase, todo, id)
    ensures Shape(E, s.(tab := Untrack(s.tab, id, id.Delegated?), disp := Loop(phase, todo)))
  {
    MoveShape(E, s, Loop(phase, todo));
    UntrackShape(E, s.(disp := Loop(phase, todo)), id);
  }

  lemma {:induction false} LimitShape(E: Env, s: State, phase: Phase, todo: set<UnionId>, limit: Key)
    requires Shape(E, s) && CurrentOk(s, phase, todo, limit.id)
    ensures Shape(E, s.(tab := PopAttempts(s.tab, limit), disp := AwaitLock(phase, todo, limit)))
  {
    var s1 := s.(disp := AwaitLock(phase, todo, limit));
    MoveShape(E, s, s1.disp);
    assert forall id :: Needs(s1.disp, id) ==> id in s.tab.tracked;
    TablesShape(E, s1, PopAttempts(s.tab, limit));
  }

  lemma {:induction false} PendingShape(
    E: Env, s: State, phase: Phase, todo: set<UnionId>, run: Key, replied: bool, task: nat)
    requires Shape(E, s) && CurrentOk(s, phase, todo, run.id) && HasStarted(E, s.now, run.id, run.interval)
    requires phase == DelegatedLoop ==> task !in s.tasks
    ensures Shape(E, CheckPending(s, phase, todo, run, replied, task))
  {
    if run.id !in s.tab.tracked {
      MoveShape(E, s, Crashed);
    } else if run in s.tab.pending || (phase == OnChainLoop && replied) {
      MoveShape(E, s, Loop(phase, todo));
    } else if phase == OnChainLoop {
      MoveShape(E, s, AskResponded(todo, run.id, run.interval));
    } else {
      MoveAndSpawnShape(E, s, todo, run, task);
    }
  }

  lemma {:induction false} MoveAndSpawnShape(E: Env, s: State, todo: set<UnionId>, run: Key, task: nat)
    requires Shape(E, s) && CurrentOk(s, DelegatedLoop, todo, run.id) && HasStarted(E, s.now, run.id, run.interval)
    requires task !in s.tasks
    ensures Shape(E, s.(disp := Loop(DelegatedLoop, todo), tasks := s.tasks[task := Spawned(run.id, run.interval)]))
  {
    MoveShape(E, s, Loop(DelegatedLoop, todo));
    SpawnShape(E, s.(disp := Loop(DelegatedLoop, todo)), task, run.id, run.interval);
  }

  lemma {:induction false} CheckShape(
    E: Env, s: State, phase: Phase, todo: set<UnionId>, id: UnionId, t2: real, t3: real, replied: bool, task: nat)
    requires Shape(E, s) && s.now <= t2 <= t3 && CurrentOk(s, phase, todo, id)
    requires id in s.tab.tracked && Active(E.terms(id), s.now)
    requires phase == DelegatedLoop ==> task !in s.tasks
    ensures Shape(E, CheckRetriesAndPending(E, s, phase, todo, id, t2, t3, replied, task))
  {
    var s1 := s.(now := t3);
    ClockShape(E, s, t3);
    IntervalMonotone(E.terms(id), s.now, t2);
    IntervalMonotone(E.terms(id), t2, t3);
    assert CurrentOk(s1, phase, todo, id);
    var limit, run := Key(id, Interval(E.terms(id), t2)), Key(id, Interval(E.terms(id), t3));
    if AttemptCount(s.tab, limit) >= MAX_ATTEMPTS {
      MoveShape(E, s1, Crashed);
      LimitShape(E, s1, phase, todo, limit);
    } else {
      PendingShape(E, s1, phase, todo, run, replied, task);
    }
  }

  lemma {:induction false} DeadlineShape(
    E: Env, s: State, todo: set<UnionId>, id: UnionId, replied: bool, t1: real, t2: real, t3: real)
    requires Shape(E, s) && CurrentOk(s, OnChainLoop, todo, id) && Active(E.terms(id), s.now) && s.now <= t1 <= t2 <= t3
    ensures Shape(E, CheckDeadline(E, s, todo, id, replied, t1, t2, t3))
  {
    if id !in s.tab.tracked {
      MoveShape(E, s, Loop(OnChainLoop, todo));
    } else if PastLastInterval(E.terms(id), t1) {
      ClockShape(E, s, t1);
      UntrackAndLoopShape(E, s.(now := t1), id, OnChainLoop, todo);
    } else {
      CheckShape(E, s, OnChainLoop, todo, id, t2, t3, replied, 0);
    }
  }

  lemma {:induction false} ResponsesShape(E: Env, s: State, count: int, replied: bool, t1: real, t2: real, t3: real)
    requires Shape(E, s) && Enabled(E, s, ResponsesAnswer(count, replied, t1, t2, t3))
    ensures Shape(E, ApplyResponses(E, s, count, replied, t1, t2, t3))
  {
    if Completed(E.terms(s.disp.id), WithCount(E, s, count), s.now) {
      UntrackAndLoopShape(E, s, s.disp.id, OnChainLoop, s.disp.todo);
    } else {
      DeadlineShape(E, s, s.disp.todo, s.disp.id, replied, t1, t2, t3);
    }
  }

  lemma {:induction false} VisitDelegatedShape(E: Env, s: State, id: UnionId, t2: real, t3: real, task: nat)
    requires Shape(E, s) && Enabled(E, s, VisitDelegated(id, t2, t3, task))
    ensures Shape(E, ApplyVisitDelegated(E, s, id, t2, t3, task))
  {
    var todo, terms := s.disp.todo - {id}, E.terms(id);
    assert TodoOk(s, DelegatedLoop, s.disp.todo);
    assert CurrentOk(s, DelegatedLoop, todo, id);
    if !Active(terms, s.now) {
      MoveShape(E, s, Loop(DelegatedLoop, todo));
    } else {
      var run := Key(id, Interval(terms, s.now));
      if run in s.tab.pending && s.tab.pending[run].Tx? {
        MoveShape(E, s, AskReceipt(todo, id, s.tab.pending[run].hash));
      } else {
        CheckShape(E, s, DelegatedLoop, todo, id, t2, t3, false, task);
      }
    }
  }

  lemma {:induction false} ReceiptAnswerShape(E: Env, s: State, ok: bool, t2: real, t3: real, task: nat)
    requires Shape(E, s) && Enabled(E, s, ReceiptAnswer(ok, t2, t3, task))
    ensures Shape(E, Apply(E, s, ReceiptAnswer(ok, t2, t3, task)))
  {
    if ok {
      UntrackAndLoopShape(E, s, s.disp.id, DelegatedLoop, s.disp.todo);
    } else {
      CheckShape(E, s, DelegatedLoop, s.disp.todo, s.disp.id, t2, t3, false, task);
    }
  }

  lemma {:induction false} RespondedShape(E: Env, s: State, responded: bool, task: nat)
    requires Shape(E, s) && Enabled(E, s, RespondedAnswer(responded, task))
    ensures Shape(E, Apply(E, s, RespondedAnswer(responded, task)))
  {
    MoveShape(E, s, Loop(OnChainLoop, s.disp.todo));
    if !responded {
      SpawnShape(E, s.(disp := Loop(OnChainLoop, s.disp.todo)), task, s.disp.id, s.disp.checked);
    }
  }

  lemma {:induction false} VisitShape(E: Env, s: State, id: UnionId)
    requires Shape(E, s) && Enabled(E, s, Visit(id))
    ensures Shape(E, Apply(E, s, Visit(id)))
  {
    assert TodoOk(s, OnChainLoop, s.disp.todo);
    assert CurrentOk(s, OnChainLoop, s.disp.todo - {id}, id);
    MoveShape(E, s, Apply(E, s, Visit(id)).disp);
  }

  lemma {:induction false} PayShape(E: Env, s: State, ok: bool)
    requires Shape(E, s) && Enabled(E, s, PayAnswer(ok))
    ensures Shape(E, Apply(E, s, PayAnswer(ok)))
  {
    if ok {
      MoveShape(E, s, AskCancelled(s.disp.todo, s.disp.id));
    } else {
      UntrackAndLoopShape(E, s, s.disp.id, OnChainLoop, s.disp.todo);
    }
  }

  lemma {:induction false} CancelShape(E: Env, s: State, cancelled: bool)
    requires Shape(E, s) && Enabled(E, s, CancelAnswer(cancelled))
    ensures Shape(E, Apply(E, s, CancelAnswer(cancelled)))
  {
    var id, todo := s.disp.id, s.disp.todo;
    if cancelled {
      UntrackAndLoopShape(E, s, id, OnChainLoop, todo);
    } else if Active(E.terms(id), s.now) {
      MoveShape(E, s, AskResponses(todo, id, Interval(E.terms(id), s.now)));
    } else {
      MoveShape(E, s, Loop(OnChainLoop, todo));
    }
  }

  lemma {:induction false} BeginShape(E: Env, s: State)
    requires Shape(E, s) && Enabled(E, s, BeginCycle)
    ensures Shape(E, Apply(E, s, BeginCycle))
  {
    var todo := set id | id in s.tab.tracked && id.OnChain?;
    assert TodoOk(s, OnChainLoop, todo);
    MoveShape(E, s, Loop(OnChainLoop, todo));
    LogShape(E, s.(disp := Loop(OnChainLoop, todo)), Apply(E, s, BeginCycle));
  }

  lemma {:induction false} NextPhaseShape(E: Env, s: State)
    requires Shape(E, s) && Enabled(E, s, NextPhase)
    ensures Shape(E, Apply(E, s, NextPhase))
  {
    var todo := set id | id in s.tab.tracked && id.Delegated?;
    assert TodoOk(s, OnChainLoop, {});
    assert TodoOk(s, DelegatedLoop, todo);
    MoveShape(E, s, Loop(DelegatedLoop, todo));
  }

  lemma {:induction false} LockedStopShape(E: Env, s: State)
    requires Shape(E, s) && Enabled(E, s, LockedStop)
    ensures Shape(E, Apply(E, s, LockedStop))
  {
    UntrackAndLoopShape(E, s, s.disp.key.id, s.disp.phase, s.disp.todo);
  }

  /** The steps that move the dispatcher without a decision about the id it visits. */
  ghost predicate IsMove(step: Step) {
    step.BeginCycle? || step.NextPhase? || step.EndCycle? || step.DispatcherRaises? || step.LockedStop? || step.Visit?
  }

  lemma {:induction false} MoveKeepsShape(E: Env, s: State, step: Step)
    requires Shape(E, s) && Enabled(E, s, step) && IsMove(step)
    ensures Shape(E, Apply(E, s, step))
  {
    match step
    case BeginCycle => BeginShape(E, s);
    case NextPhase => NextPhaseShape(E, s);
    case EndCycle => MoveShape(E, s, Asleep);
    case DispatcherRaises => MoveShape(E, s, Died);
    case LockedStop => LockedStopShape(E, s);
    case Visit(id) => VisitShape(E, s, id);
  }

  ghost predicate IsAnswer(step: Step) {
    step.PayAnswer? || step.CancelAnswer? || step.ResponsesAnswer? || step.RespondedAnswer?
    || step.VisitDelegated? || step.ReceiptAnswer?
  }

  lemma {:induction false} AnswerKeepsShape(E: Env, s: State, step: Step)
    requires Shape(E, s) && Enabled(E, s, step) && IsAnswer(step)
    ensures Shape(E, Apply(E, s, step))
  {
    match step
    case PayAnswer(ok) => PayShape(E, s, ok);
    case CancelAnswer(cancelled) => CancelShape(E, s, cancelled);
    case ResponsesAnswer(count, replied, t1, t2, t3) => ResponsesShape(E, s, count, replied, t1, t2, t3);
    case RespondedAnswer(responded, task) => RespondedShape(E, s, responded, task);
    case VisitDelegated(id, t2, t3, task) => VisitDelegatedShape(E, s, id, t2, t3, task);
    case ReceiptAnswer(ok, t2, t3, task) => ReceiptAnswerShape(E, s, ok, t2, t3, task);
  }

  /** Every step of every run keeps the shape: no hypothesis on what is tracked when. */
  lemma {:induction false} StepKeepsShape(E: Env, s: State, step: Step)
    requires Shape(E, s) && Enabled(E, s, step)
    ensures Shape(E, Apply(E, s, step))
  {
    if IsTaskStep(step) {
      TaskKeepsShape(E, s, step);
    } else if IsPruneStep(step) {
      PruneKeepsShape(E, s, step);
    } else if IsWorldStep(step) {
      WorldKeepsShape(E, s, step);
    } else if IsMove(step) {
      MoveKeepsShape(E, s, step);
    } else {
      AnswerKeepsShape(E, s, step);
    }
  }

  lemma {:induction false} RunKeepsShape(E: Env, s: State, steps: seq<Step>)
    requires Shape(E, s) && Run(E, s, steps)
    ensures Shape(E, Final(E, s, steps))
    decreases |steps|
  {
    if steps != [] {
      StepKeepsShape(E, s, steps[0]);
      RunKeepsShape(E, Apply(E, s, steps[0]), steps[1..]);
    }
  }
}
