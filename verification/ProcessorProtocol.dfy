/** The chain processor as a protocol (src/chain/processor.py): one dispatcher loop, the prune
    tasks it spawns, processing tasks, tracking messages, the chain and the clock, interleaved
    at every `await`.  A `Step` is what runs between two suspension points.  `Enabled` says when
    a step may run and `Apply` what it does; every answer of a foreign call is a parameter. */
module ProcessorProtocol {
  import opened Subscriptions
  import opened ProcessorTables

  /** The parameters of every subscription, fixed per id. */
  datatype Env = Env(terms: UnionId -> Terms)

  /** A processing task: created, past its first segment, or with its transaction sent.
      `checked` is the interval at which the dispatcher found nothing pending; only the proof
      reads it. */
  datatype Task =
    | Spawned(id: UnionId, checked: int)
    | Working(key: Key)
    | Submitted(key: Key, hash: nat)

  function TaskId(task: Task): UnionId {
    match task
    case Spawned(id, _) => id
    case Working(key) => key.id
    case Submitted(key, _) => key.id
  }

  /** The attempts lock.  Only a prune pass keeps it over a suspension: `snap` is its copy of
      `_pending`, `todo` the hashes it has not asked about, `failed` its list of failures. */
  datatype Lock = Free | Pruning(snap: map<Key, Entry>, todo: set<Key>, failed: seq<Key>)

  datatype Phase = OnChainLoop | DelegatedLoop

  /** Where the dispatcher is suspended; `todo` holds the ids of its copy still to visit. */
  datatype Dispatcher =
    | Asleep
    | Loop(phase: Phase, todo: set<UnionId>)
    | AskPay(todo: set<UnionId>, id: UnionId)
    | AskCancelled(todo: set<UnionId>, id: UnionId)
    | AskResponses(todo: set<UnionId>, id: UnionId, interval: int)
    | AskResponded(todo: set<UnionId>, id: UnionId, checked: int)
    | AskReceipt(todo: set<UnionId>, id: UnionId, hash: nat)
    | AwaitLock(phase: Phase, todo: set<UnionId>, key: Key)
    | Died      // a foreign call raised
    | Crashed   // an unguarded read of the loop raised

  /** `records` holds the response counts that each tracked subscription object carries, and `copies` the deep copy of them the dispatcher works on in its cycle.  The
      rest is not read by the program: `receipts` are the transactions the chain has decided,
      `sent` logs the transactions of each run since its id was tracked or the run was last
      forced to execute again, `closed` the transactions before that in the same tracking
      period, `forced` counts those forced executions, `ever` has the ids ever tracked. */
  datatype State = State(
    now: real,
    tab: Tables,
    waiting: nat,
    lock: Lock,
    disp: Dispatcher,
    tasks: map<nat, Task>,
    records: map<UnionId, Record>,
    copies: map<UnionId, Record>,
    receipts: map<nat, bool>,
    sent: map<Key, seq<nat>>,
    closed: map<Key, seq<nat>>,
    forced: map<Key, nat>,
    ever: set<UnionId>)

  function Init(now: real): State {
    State(now, Tables({}, map[], map[]), 0, Free, Asleep, map[], map[], map[], map[], map[], map[], map[], {})
  }

  function Sent(s: State, key: Key): seq<nat> {
    if key in s.sent then s.sent[key] else []
  }

  function Closed(s: State, key: Key): seq<nat> {
    if key in s.closed then s.closed[key] else []
  }

  function Forced(s: State, key: Key): nat {
    if key in s.forced then s.forced[key] else 0
  }

  /** All transactions of a run in the current tracking period of its id. */
  function PeriodLog(s: State, key: Key): seq<nat> {
    Closed(s, key) + Sent(s, key)
  }

  /** The dispatcher's copy of a subscription's record. */
  function Copy(s: State, id: UnionId): Record {
    if id in s.copies then s.copies[id] else Record(map[])
  }

  datatype Step =
    | Tick(t: real)
    | Mine(hash: nat, ok: bool)
    | TrackMessage(id: UnionId, record: Record)
    | EvictMessage(key: Key)
    | BeginCycle
    | NextPhase
    | EndCycle
    | Visit(id: UnionId)
    | PayAnswer(ok: bool)
    | CancelAnswer(cancelled: bool)
    | ResponsesAnswer(count: int, replied: bool, t1: real, t2: real, t3: real)
    | RespondedAnswer(responded: bool, task: nat)
    | VisitDelegated(id: UnionId, t2: real, t3: real, task: nat)
    | ReceiptAnswer(ok: bool, t2: real, t3: real, task: nat)
    | LockedStop
    | DispatcherRaises
    | PruneAcquire
    | PruneReceipt(key: Key, found: bool)
    | PruneFinish
    | PruneRaises
    | TaskStart(task: nat, t1: real, t2: real)
    | TaskSimulationFails(task: nat)
    | TaskContainerFails(task: nat, empty: bool)
    | TaskSends(task: nat, hash: nat)
    | TaskDeliveryFails(task: nat)
    | TaskRaises(task: nat)
    | TaskFinishes(task: nat)

  // -------------------------------------------------------------------- shared segments

  /** `_stop_tracking(subscription.id, delegated)` as processing tasks call it: the id of a
      delegated subscription object is -1. */
  function StopOwn(tab: Tables, id: UnionId): Tables {
    if id.OnChain? then Untrack(tab, id, false) else Untrack(tab, OnChain(-1), true)
  }

  function DropTask(s: State, task: nat): State {
    s.(tasks := s.tasks - {task})
  }

  /** The tail of both loops, without a suspension: the retry limit at clock `t2`, then the
      pending check at `t3`. */
  function CheckRetriesAndPending(
    E: Env, s: State, phase: Phase, todo: set<UnionId>, id: UnionId, t2: real, t3: real, replied: bool, task: nat): State
  {
    var terms, s' := E.terms(id), s.(now := t3);
    if !Active(terms, t2) || !Active(terms, t3) then s'.(disp := Crashed)
    else
      var limit := Key(id, Interval(terms, t2));
      if AttemptCount(s.tab, limit) >= MAX_ATTEMPTS then
        if limit !in s.tab.pending then s'.(disp := Crashed)
        else s'.(tab := PopAttempts(s.tab, limit), disp := AwaitLock(phase, todo, limit))
      else CheckPending(s', phase, todo, Key(id, Interval(terms, t3)), replied, task)
  }

  /** The pending check; a free run leads to the question to the chain or, for a delegated
      subscription, to a new task. */
  function CheckPending(s: State, phase: Phase, todo: set<UnionId>, run: Key, replied: bool, task: nat): State {
    if run.id !in s.tab.tracked then s.(disp := Crashed)
    else if run in s.tab.pending then s.(disp := Loop(phase, todo))
    else if phase == OnChainLoop then
      s.(disp := if replied then Loop(phase, todo) else AskResponded(todo, run.id, run.interval))
    else s.(disp := Loop(phase, todo), tasks := s.tasks[task := Spawned(run.id, run.interval)])
  }

  // ------------------------------------------------------------------------ when and what

  predicate Enabled(E: Env, s: State, step: Step) {
    match step
    case Tick(t) => s.now <= t
    case Mine(hash, _) => hash !in s.receipts
    case TrackMessage(id, _) => id.OnChain? ==> id.id > 0
    case EvictMessage(key) => key.id.Delegated? && s.lock.Free?
    case BeginCycle =>
      // a task created before `sleep` runs its first segment before the sleeper wakes
      s.disp.Asleep? && forall t :: t in s.tasks ==> !s.tasks[t].Spawned?
    case NextPhase => s.disp == Loop(OnChainLoop, {})
    case EndCycle => s.disp == Loop(DelegatedLoop, {})
    case Visit(id) => s.disp.Loop? && s.disp.phase == OnChainLoop && id in s.disp.todo
    case PayAnswer(_) => s.disp.AskPay?
    case CancelAnswer(_) => s.disp.AskCancelled?
    case ResponsesAnswer(_, _, t1, t2, t3) => s.disp.AskResponses? && s.now <= t1 <= t2 <= t3
    case RespondedAnswer(_, task) => s.disp.AskResponded? && task !in s.tasks
    case VisitDelegated(id, t2, t3, task) =>
      s.disp.Loop? && s.disp.phase == DelegatedLoop && id in s.disp.todo
      && s.now <= t2 <= t3 && task !in s.tasks
    case ReceiptAnswer(ok, t2, t3, task) =>
      s.disp.AskReceipt? && s.now <= t2 <= t3 && task !in s.tasks
      && (ok ==> s.disp.hash in s.receipts && s.receipts[s.disp.hash])
    case LockedStop => s.disp.AwaitLock? && s.lock.Free?
    case DispatcherRaises =>
      s.disp.AskPay? || s.disp.AskCancelled? || s.disp.AskResponses? || s.disp.AskResponded? || s.disp.AskReceipt?
    case PruneAcquire => s.waiting > 0 && s.lock.Free?
    case PruneReceipt(key, found) =>
      s.lock.Pruning? && key in s.lock.todo && key in s.lock.snap && s.lock.snap[key].Tx?
      && (found ==> s.lock.snap[key].hash in s.receipts)
    case PruneFinish => s.lock.Pruning? && s.lock.todo == {}
    case PruneRaises => s.lock.Pruning?
    case TaskStart(task, t1, t2) => task in s.tasks && s.tasks[task].Spawned? && s.now <= t1 <= t2
    case TaskSimulationFails(task) =>
      task in s.tasks && s.tasks[task].Working?
      && var terms := E.terms(TaskId(s.tasks[task])); IsCallback(terms) && !terms.requiresProof
    case TaskContainerFails(task, _) => task in s.tasks && s.tasks[task].Working?
    case TaskSends(task, _) => task in s.tasks && s.tasks[task].Working?
    case TaskDeliveryFails(task) => task in s.tasks && !s.tasks[task].Spawned?
    case TaskRaises(task) => task in s.tasks && !s.tasks[task].Spawned?
    case TaskFinishes(task) => task in s.tasks && s.tasks[task].Submitted?
  }

  function Apply(E: Env, s: State, step: Step): State
    requires Enabled(E, s, step)
  {
    match step
    case Tick(t) => s.(now := t)
    case Mine(hash, ok) => s.(receipts := s.receipts[hash := ok])
    case TrackMessage(id, record) => ApplyTrack(s, id, record)
    case EvictMessage(key) =>
      s.(tab := PopAttempts(Release(s.tab, key), key), sent := s.sent - {key},
         closed := s.closed[key := PeriodLog(s, key)], forced := s.forced[key := Forced(s, key) + 1])
    case BeginCycle =>
      s.(waiting := s.waiting + 1, copies := s.records, disp := Loop(OnChainLoop, set id | id in s.tab.tracked && id.OnChain?))
    case NextPhase => s.(disp := Loop(DelegatedLoop, set id | id in s.tab.tracked && id.Delegated?))
    case EndCycle => s.(disp := Asleep)
    case Visit(id) =>
      var todo := s.disp.todo - {id};
      s.(disp :=
        if id !in s.tab.tracked then Loop(OnChainLoop, todo)
        else if ProvidesPayment(E.terms(id)) then AskPay(todo, id)
        else AskCancelled(todo, id))
    case PayAnswer(ok) =>
      if ok then s.(disp := AskCancelled(s.disp.todo, s.disp.id))
      else s.(tab := Untrack(s.tab, s.disp.id, false), disp := Loop(OnChainLoop, s.disp.todo))
    case CancelAnswer(cancelled) =>
      if cancelled then
        s.(tab := Untrack(s.tab, s.disp.id, false), disp := Loop(OnChainLoop, s.disp.todo))
      else
        s.(disp := if Active(E.terms(s.disp.id), s.now)
                   then AskResponses(s.disp.todo, s.disp.id, Interval(E.terms(s.disp.id), s.now))
                   else Loop(OnChainLoop, s.disp.todo))
    case ResponsesAnswer(count, replied, t1, t2, t3) => ApplyResponses(E, s, count, replied, t1, t2, t3)
    case RespondedAnswer(responded, task) =>
      var s' := s.(disp := Loop(OnChainLoop, s.disp.todo));
      if responded then s' else s'.(tasks := s.tasks[task := Spawned(s.disp.id, s.disp.checked)])
    case VisitDelegated(id, t2, t3, task) => ApplyVisitDelegated(E, s, id, t2, t3, task)
    case ReceiptAnswer(ok, t2, t3, task) =>
      if ok then s.(tab := Untrack(s.tab, s.disp.id, true), disp := Loop(DelegatedLoop, s.disp.todo))
      else CheckRetriesAndPending(E, s, DelegatedLoop, s.disp.todo, s.disp.id, t2, t3, false, task)
    case LockedStop =>
      s.(tab := Untrack(s.tab, s.disp.key.id, s.disp.phase == DelegatedLoop),
         disp := Loop(s.disp.phase, s.disp.todo))
    case DispatcherRaises => s.(disp := Died)
    case PruneAcquire =>
      s.(waiting := s.waiting - 1,
         lock := Pruning(s.tab.pending, set k | k in s.tab.pending && s.tab.pending[k].Tx?, []))
    case PruneReceipt(key, found) => ApplyReceipt(s, key, found)
    case PruneFinish => s.(tab := EvictAll(s.tab, s.lock.failed), lock := Free)
    case PruneRaises => s.(lock := Free)
    case TaskStart(task, t1, t2) => ApplyStart(E, s, task, t1, t2)
    case TaskSimulationFails(task) =>
      DropTask(s.(tab := StopOwn(s.tab, TaskId(s.tasks[task]))), task)
    case TaskContainerFails(task, empty) => ApplyContainerFailure(E, s, task, empty)
    case TaskSends(task, hash) =>
      var key := s.tasks[task].key;
      s.(tasks := s.tasks[task := Submitted(key, hash)], sent := s.sent[key := Sent(s, key) + [hash]])
    case TaskDeliveryFails(task) =>
      var id := TaskId(s.tasks[task]);
      DropTask(if IsCallback(E.terms(id)) then s.(tab := StopOwn(s.tab, id)) else s, task)
    case TaskRaises(task) => DropTask(s, task)
    case TaskFinishes(task) =>
      DropTask(s.(tab := SetPending(s.tab, s.tasks[task].key, Tx(s.tasks[task].hash))), task)
  }

  function Without<T>(m: map<Key, T>, id: UnionId): map<Key, T> {
    map k | k in m && k.id != id :: m[k]
  }

  /** Tracking an id that is not tracked starts a new period for all of its runs. */
  function ApplyTrack(s: State, id: UnionId, record: Record): State {
    var s' := s.(tab := Track(s.tab, id), records := s.records[id := record], ever := s.ever + {id});
    if id in s.tab.tracked then s'
    else s'.(sent := Without(s.sent, id), closed := Without(s.closed, id), forced := Without(s.forced, id))
  }

  /** The record after the fetched count is set for the interval it was asked for. */
  function WithCount(E: Env, s: State, count: int): Record
    requires s.disp.AskResponses?
  {
    ApplyCall(E.terms(s.disp.id), Copy(s, s.disp.id), Call(s.now, s.disp.interval, count))
  }

  /** The on-chain loop from the response count to the next suspension. */
  function ApplyResponses(E: Env, s: State, count: int, replied: bool, t1: real, t2: real, t3: real): State
    requires s.disp.AskResponses?
  {
    var id, todo := s.disp.id, s.disp.todo;
    var terms := E.terms(id);
    if Completed(terms, WithCount(E, s, count), s.now) then
      s.(tab := Untrack(s.tab, id, false), disp := Loop(OnChainLoop, todo))
    else CheckDeadline(E, s, todo, id, replied, t1, t2, t3)
  }

  /** The deadline check of the on-chain loop at clock `t1`, and what follows it. */
  function CheckDeadline(E: Env, s: State, todo: set<UnionId>, id: UnionId, replied: bool, t1: real, t2: real, t3: real): State {
    if id !in s.tab.tracked then s.(disp := Loop(OnChainLoop, todo))
    else if PastLastInterval(E.terms(id), t1) then
      s.(now := t1, tab := Untrack(s.tab, id, false), disp := Loop(OnChainLoop, todo))
    else CheckRetriesAndPending(E, s, OnChainLoop, todo, id, t2, t3, replied, 0)
  }

  /** The delegated loop from the choice of an id to the next suspension. */
  function ApplyVisitDelegated(E: Env, s: State, id: UnionId, t2: real, t3: real, task: nat): State
    requires s.disp.Loop?
  {
    var todo, terms := s.disp.todo - {id}, E.terms(id);
    if !Active(terms, s.now) then s.(disp := Loop(DelegatedLoop, todo))
    else if id !in s.tab.tracked then s.(disp := Crashed)
    else
      var run := Key(id, Interval(terms, s.now));
      if run in s.tab.pending && s.tab.pending[run].Tx?
      then s.(disp := AskReceipt(todo, id, s.tab.pending[run].hash))
      else CheckRetriesAndPending(E, s, DelegatedLoop, todo, id, t2, t3, false, task)
  }

  /** A prune pass resumes with one receipt: not found, succeeded or failed. */
  function ApplyReceipt(s: State, key: Key, found: bool): State
    requires s.lock.Pruning? && key in s.lock.snap && s.lock.snap[key].Tx?
    requires found ==> s.lock.snap[key].hash in s.receipts
  {
    var lock := s.lock.(todo := s.lock.todo - {key});
    if !found then s.(lock := lock)
    else if s.receipts[s.lock.snap[key].hash] then s.(lock := lock, tab := PopAttempts(s.tab, key))
    else s.(lock := lock.(failed := lock.failed + [key]))
  }

  /** The first segment of a processing task; the interval is read before the deadline. */
  function ApplyStart(E: Env, s: State, task: nat, t1: real, t2: real): State
    requires task in s.tasks && s.tasks[task].Spawned?
  {
    var id := s.tasks[task].id;
    var terms, s' := E.terms(id), s.(now := t2);
    if !Active(terms, t1) || id !in s.tab.tracked then DropTask(s', task)
    else if PastLastInterval(terms, t2) then
      DropTask(s'.(tab := Untrack(s.tab, id, id.Delegated?)), task)
    else
      var key := Key(id, Interval(terms, t1));
      s'.(tab := SetPending(s.tab, key, Blocked), tasks := s.tasks[task := Working(key)])
  }

  /** A container error: the run is released (a missing entry raises, which ends the processing), and
      a callback is untracked unless the result list was empty. */
  function ApplyContainerFailure(E: Env, s: State, task: nat, empty: bool): State
    requires task in s.tasks && s.tasks[task].Working?
  {
    var key := s.tasks[task].key;
    if key !in s.tab.pending then DropTask(s, task)
    else
      var tab := Release(s.tab, key);
      DropTask(s.(tab := if IsCallback(E.terms(key.id)) && !empty then StopOwn(tab, key.id) else tab), task)
  }

  // -------------------------------------------------------------------------------- runs

  predicate Run(E: Env, s: State, steps: seq<Step>)
    decreases |steps|
  {
    steps == [] || (Enabled(E, s, steps[0]) && Run(E, Apply(E, s, steps[0]), steps[1..]))
  }

  function Final(E: Env, s: State, steps: seq<Step>): State
    requires Run(E, s, steps)
    decreases |steps|
  {
    if steps == [] then s else Final(E, Apply(E, s, steps[0]), steps[1..])
  }
}
