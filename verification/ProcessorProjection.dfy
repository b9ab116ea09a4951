/** The protocol seen from one run: every step of every run of the chain processor is, for each
    (id, interval), at most three moves of the machine in ProcessorRuns.dfy. */
module ProcessorProjection {
  import opened Subscriptions
  import opened ProcessorTables
  import opened ProcessorProtocol
  import opened ProcessorShape
  import opened ProcessorRuns

  predicate Past(E: Env, now: real, key: Key) {
    Active(E.terms(key.id), now) && key.interval < Interval(E.terms(key.id), now)
  }

  function ProgressOf(task: Task): Progress {
    if task.Submitted? then Delivered(task.hash) else Running
  }

  predicate Executes(task: Task, key: Key) { !task.Spawned? && task.key == key }

  function ExecOf(tasks: map<nat, Task>, key: Key): map<nat, Progress> {
    map t | t in tasks && Executes(tasks[t], key) :: ProgressOf(tasks[t])
  }

  /** A created task that may still start the run. */
  predicate MayStart(task: Task, key: Key) {
    task.Spawned? && task.id == key.id && task.checked <= key.interval
  }

  predicate SpawnedFor(tasks: map<nat, Task>, key: Key) {
    exists t :: t in tasks && MayStart(tasks[t], key)
  }

  predicate AskedFor(d: Dispatcher, key: Key) {
    d.AskResponded? && d.id == key.id && d.checked <= key.interval
  }

  function SlotOf(tab: Tables, key: Key): Slot {
    if key in tab.pending then Holds(tab.pending[key]) else Empty
  }

  function ListingOf(lock: Lock, key: Key): Listing {
    if lock.Free? || key !in lock.snap || !lock.snap[key].Tx? then Unlisted
    else if key in lock.todo then Asking(lock.snap[key].hash)
    else if key in lock.failed then Failing(lock.snap[key].hash)
    else Unlisted
  }

  predicate Doomed(d: Dispatcher, key: Key) { d.AwaitLock? && d.key == key }

  function View(E: Env, s: State, key: Key): RunView {
    RunView(
      Past(E, s.now, key), key.id in s.tab.tracked, SlotOf(s.tab, key), AttemptCount(s.tab, key),
      ExecOf(s.tasks, key), SpawnedFor(s.tasks, key) || AskedFor(s.disp, key), ListingOf(s.lock, key),
      Doomed(s.disp, key), Sent(s, key), Closed(s, key), Forced(s, key), s.receipts)
  }

  // ------------------------------------------------------------------- the moves of a step

  const NOTHING: Moves := Moves(Stay, Stay, Stay)

  function One(m: Move): Moves { Moves(m, Stay, Stay) }

  function When(b: bool, m: Move): Move { if b then m else Stay }

  /** The eviction loop gets as far as this key. */
  predicate Reaches(tab: Tables, failed: seq<Key>, key: Key)
    decreases |failed|
  {
    failed != []
    && (failed[0] == key
        || (!EvictionMisses(tab, failed[0]) && Reaches(EvictOne(tab, failed[0]), failed[1..], key)))
  }

  function CheckMoves(E: Env, s: State, id: UnionId, t2: real, t3: real, asks: bool, key: Key): Moves
    requires Active(E.terms(id), t2) && Active(E.terms(id), t3)
  {
    var limit, run := Key(id, Interval(E.terms(id), t2)), Key(id, Interval(E.terms(id), t3));
    if AttemptCount(s.tab, limit) >= MAX_ATTEMPTS then
      Moves(Age(Past(E, t2, key)), When(key == limit && limit in s.tab.pending, Pop), Age(Past(E, t3, key)))
    else
      Moves(Age(Past(E, t3, key)),
            When(id == key.id && asks && run !in s.tab.pending && run.interval <= key.interval, Check), Stay)
  }

  function StartMoves(E: Env, s: State, task: nat, t1: real, t2: real, key: Key): Moves
    requires task in s.tasks && s.tasks[task].Spawned?
  {
    var id := s.tasks[task].id;
    var quits := When(MayStart(s.tasks[task], key), Quit);
    if !Active(E.terms(id), t1) || id !in s.tab.tracked then Moves(Age(Past(E, t2, key)), quits, Stay)
    else if PastLastInterval(E.terms(id), t2) then
      Moves(Age(Past(E, t2, key)), When(id == key.id, Untracked), quits)
    else if key == Key(id, Interval(E.terms(id), t1)) then
      Moves(Age(Past(E, t1, key)), Start(task), Age(Past(E, t2, key)))
    else Moves(Age(Past(E, t2, key)), quits, Stay)
  }

  /** An on-chain id is untracked by its own tasks, a delegated one is not. */
  function StopMove(id: UnionId, key: Key): Move { When(id.OnChain? && id == key.id, Untracked) }

  function ContainerMoves(E: Env, s: State, task: nat, empty: bool, key: Key): Moves
    requires task in s.tasks && s.tasks[task].Working?
  {
    var own := s.tasks[task].key;
    if own !in s.tab.pending then One(When(own == key, Drop(task)))
    else Moves(When(own == key, Freed(task)),
               if IsCallback(E.terms(own.id)) && !empty then StopMove(own.id, key) else Stay, Stay)
  }

  function DispatcherMoves(E: Env, s: State, step: Step, key: Key): Moves
    requires Enabled(E, s, step) && Shape(E, s)
  {
    match step
    case PayAnswer(ok) => One(When(!ok && s.disp.id == key.id, Untracked))
    case CancelAnswer(cancelled) => One(When(cancelled && s.disp.id == key.id, Untracked))
    case ResponsesAnswer(count, replied, t1, t2, t3) =>
      var id := s.disp.id;
      if Completed(E.terms(id), WithCount(E, s, count), s.now) then One(When(id == key.id, Untracked))
      else if id !in s.tab.tracked then NOTHING
      else if PastLastInterval(E.terms(id), t1) then
        Moves(Age(Past(E, t1, key)), When(id == key.id, Untracked), Stay)
      else CheckedAt(E, s, id, t2, t3); CheckMoves(E, s, id, t2, t3, !replied, key)
    case RespondedAnswer(responded, _) => One(When(responded && AskedFor(s.disp, key), Quit))
    case VisitDelegated(id, t2, t3, _) =>
      if !Active(E.terms(id), s.now) then NOTHING
      else
        var run := Key(id, Interval(E.terms(id), s.now));
        if run in s.tab.pending && s.tab.pending[run].Tx? then NOTHING
        else CheckedAt(E, s, id, t2, t3); CheckMoves(E, s, id, t2, t3, true, key)
    case ReceiptAnswer(ok, t2, t3, _) =>
      if ok then One(When(s.disp.id == key.id, Untracked))
      else CheckedAt(E, s, s.disp.id, t2, t3); CheckMoves(E, s, s.disp.id, t2, t3, true, key)
    case LockedStop =>
      Moves(When(s.disp.key.id == key.id, Untracked), When(s.disp.key == key, Undoom), Stay)
    case DispatcherRaises => One(When(AskedFor(s.disp, key), Quit))
    case _ => NOTHING
  }

  lemma {:induction false} CheckedAt(E: Env, s: State, id: UnionId, t2: real, t3: real)
    requires Active(E.terms(id), s.now) && s.now <= t2 <= t3
    ensures Active(E.terms(id), t2) && Active(E.terms(id), t3)
    ensures Interval(E.terms(id), s.now) <= Interval(E.terms(id), t2) <= Interval(E.terms(id), t3)
  {
    IntervalMonotone(E.terms(id), s.now, t2);
    IntervalMonotone(E.terms(id), t2, t3);
  }

  /** What a step does to the run `key`. */
  function MovesOf(E: Env, s: State, step: Step, key: Key): Moves
    requires Enabled(E, s, step) && Shape(E, s)
  {
    match step
    case Tick(t) => One(Age(Past(E, t, key)))
    case Mine(hash, ok) => One(Mined(hash, ok))
    case TrackMessage(id, _) => One(When(id == key.id && id !in s.tab.tracked, TrackAnew))
    case EvictMessage(k) => One(When(k == key, Force))
    case PruneAcquire => One(When(key in s.tab.pending && s.tab.pending[key].Tx?, Copied))
    case PruneReceipt(k, found) => One(When(k == key, Answered(found)))
    case PruneFinish =>
      if key !in s.lock.failed then NOTHING
      else One(if Reaches(s.tab, s.lock.failed, key) then Counted else Unlist)
    case PruneRaises => One(When(!ListingOf(s.lock, key).Unlisted?, Unlist))
    case TaskStart(task, t1, t2) => StartMoves(E, s, task, t1, t2, key)
    case TaskSimulationFails(task) =>
      Moves(When(s.tasks[task].key == key, Drop(task)), StopMove(TaskId(s.tasks[task]), key), Stay)
    case TaskContainerFails(task, empty) => ContainerMoves(E, s, task, empty, key)
    case TaskSends(task, hash) => One(When(s.tasks[task].key == key, Send(task, hash)))
    case TaskDeliveryFails(task) =>
      Moves(When(s.tasks[task].key == key, Drop(task)),
            if IsCallback(E.terms(TaskId(s.tasks[task]))) then StopMove(TaskId(s.tasks[task]), key) else Stay, Stay)
    case TaskRaises(task) => One(When(s.tasks[task].key == key, Drop(task)))
    case TaskFinishes(task) => One(When(s.tasks[task].key == key, Finish(task)))
    case _ => DispatcherMoves(E, s, step, key)
  }

  /** The step is these moves of the run. */
  ghost predicate Projects(E: Env, s: State, s': State, ms: Moves, key: Key) {
    CanAll(View(E, s, key), ms) && View(E, s', key) == DoAll(View(E, s, key), ms)
  }

  /** The change is this one move of the run. */
  ghost predicate Is(E: Env, s: State, s': State, m: Move, key: Key) {
    Can(View(E, s, key), m) && View(E, s', key) == Do(View(E, s, key), m)
  }

  lemma {:induction false} AsOne(E: Env, s: State, s': State, m: Move, key: Key)
    requires Is(E, s, s', m, key)
    ensures Projects(E, s, s', One(m), key)
  {
  }

  lemma {:induction false} AsMany(E: Env, s: State, s1: State, s2: State, s': State, ms: Moves, key: Key)
    requires Is(E, s, s1, ms.first, key) && Is(E, s1, s2, ms.second, key) && Is(E, s2, s', ms.third, key)
    ensures Projects(E, s, s', ms, key)
  {
  }

  lemma {:induction false} Same(E: Env, s: State, s': State, key: Key)
    requires View(E, s', key) == View(E, s, key)
    ensures Is(E, s, s', Stay, key) && Projects(E, s, s', NOTHING, key)
  {
  }

  // ------------------------------------------------------------------------ task updates

  lemma {:induction false} DropExec(tasks: map<nat, Task>, task: nat, key: Key)
    ensures ExecOf(tasks - {task}, key) == ExecOf(tasks, key) - {task}
    ensures task in ExecOf(tasks, key) <==> task in tasks && Executes(tasks[task], key)
    ensures task !in ExecOf(tasks, key) ==> ExecOf(tasks - {task}, key) == ExecOf(tasks, key)
  {
  }

  lemma {:induction false} PutExec(tasks: map<nat, Task>, task: nat, work: Task, key: Key)
    ensures ExecOf(tasks[task := work], key) ==
      if Executes(work, key) then ExecOf(tasks, key)[task := ProgressOf(work)] else ExecOf(tasks, key) - {task}
    ensures task !in ExecOf(tasks, key) ==> ExecOf(tasks, key) - {task} == ExecOf(tasks, key)
  {
  }

  /** A task that is not created for the run leaves what may start it. */
  lemma {:induction false} DropSpawned(tasks: map<nat, Task>, task: nat, key: Key)
    requires task in tasks ==> !MayStart(tasks[task], key)
    ensures SpawnedFor(tasks - {task}, key) <==> SpawnedFor(tasks, key)
  {
    if SpawnedFor(tasks, key) {
      var t :| t in tasks && MayStart(tasks[t], key);
      assert t in tasks - {task};
    }
    if SpawnedFor(tasks - {task}, key) {
      var t :| t in tasks - {task} && MayStart((tasks - {task})[t], key);
      assert t in tasks && MayStart(tasks[t], key);
    }
  }

  lemma {:induction false} PutSpawned(tasks: map<nat, Task>, task: nat, work: Task, key: Key)
    requires !work.Spawned?
    ensures SpawnedFor(tasks[task := work], key) <==> SpawnedFor(tasks - {task}, key)
  {
    if SpawnedFor(tasks - {task}, key) {
      var t :| t in tasks - {task} && MayStart((tasks - {task})[t], key);
      assert MayStart(tasks[task := work][t], key);
    }
    if SpawnedFor(tasks[task := work], key) {
      var t :| t in tasks[task := work] && MayStart(tasks[task := work][t], key);
      assert t in tasks - {task};
    }
  }

  /** The one created task of an id is all that may start its runs. */
  lemma {:induction false} OnlyOneMayStart(E: Env, s: State, task: nat, key: Key)
    requires SpawnedOk(s) && DispOk(E, s) && task in s.tasks && MayStart(s.tasks[task], key)
    ensures SpawnedFor(s.tasks, key) && !SpawnedFor(s.tasks - {task}, key) && !AskedFor(s.disp, key)
  {
    var others := s.tasks - {task};
    forall t | t in others ensures !MayStart(others[t], key) {
      assert t in s.tasks && t != task && others[t] == s.tasks[t];
    }
  }

  /** An id the dispatcher is visiting has no created task. */
  lemma {:induction false} NotSpawnedWhileVisited(s: State, key: Key)
    requires NoneSpawned(s, {key.id})
    ensures !SpawnedFor(s.tasks, key)
  {
  }

  // ---------------------------------------------------------------- the simulation, by step

  lemma {:induction false} UntrackView(E: Env, s: State, id: UnionId, key: Key)
    ensures Is(E, s, s.(tab := Untrack(s.tab, id, id.Delegated?)), When(id == key.id, Untracked), key)
  {
  }

  lemma {:induction false} StopOwnView(E: Env, s: State, id: UnionId, key: Key)
    requires IdsOk(s) && PendingOk(E, s)
    ensures Is(E, s, s.(tab := StopOwn(s.tab, id)), StopMove(id, key), key)
  {
    StopOwnExact(E, s, id);
    if id.OnChain? { UntrackView(E, s, id, key); }
  }

  lemma {:induction false} DropView(E: Env, s: State, task: nat, key: Key)
    requires task in s.tasks && !s.tasks[task].Spawned?
    ensures Is(E, s, DropTask(s, task), When(s.tasks[task].key == key, Drop(task)), key)
  {
    DropExec(s.tasks, task, key);
    DropSpawned(s.tasks, task, key);
  }

  lemma {:induction false} QuitView(E: Env, s: State, task: nat, key: Key)
    requires SpawnedOk(s) && DispOk(E, s) && task in s.tasks && s.tasks[task].Spawned?
    ensures Is(E, s, DropTask(s, task), When(MayStart(s.tasks[task], key), Quit), key)
  {
    if MayStart(s.tasks[task], key) {
      OnlyOneMayStart(E, s, task, key);
      OwnQuitView(E, s, task, key);
    } else {
      DropExec(s.tasks, task, key);
      DropSpawned(s.tasks, task, key);
    }
  }

  lemma {:induction false} OwnQuitView(E: Env, s: State, task: nat, key: Key)
    requires task in s.tasks && s.tasks[task].Spawned?
    requires SpawnedFor(s.tasks, key) && !SpawnedFor(s.tasks - {task}, key) && !AskedFor(s.disp, key)
    ensures Is(E, s, DropTask(s, task), Quit, key)
  {
    DropExec(s.tasks, task, key);
  }

  lemma {:induction false} AgeView(E: Env, s: State, now: real, key: Key)
    requires s.now <= now
    ensures Is(E, s, s.(now := now), Age(Past(E, now, key)), key)
  {
    if Past(E, s.now, key) { IntervalMonotone(E.terms(key.id), s.now, now); }
  }

  lemma {:induction false} TrackLog(s: State, id: UnionId, record: Record, key: Key)
    ensures var s' := ApplyTrack(s, id, record);
      if key.id == id && id !in s.tab.tracked then Sent(s', key) == Closed(s', key) == [] && Forced(s', key) == 0
      else Sent(s', key) == Sent(s, key) && Closed(s', key) == Closed(s, key) && Forced(s', key) == Forced(s, key)
  {
  }

  lemma {:induction false} TrackView(E: Env, s: State, id: UnionId, record: Record, key: Key)
    ensures Is(E, s, ApplyTrack(s, id, record), When(id == key.id && id !in s.tab.tracked, TrackAnew), key)
  {
    TrackLog(s, id, record, key);
  }

  lemma {:induction false} ForceLog(E: Env, s: State, k: Key, key: Key)
    requires Enabled(E, s, EvictMessage(k))
    ensures var s' := Apply(E, s, EvictMessage(k));
      if key == k then Sent(s', key) == [] && Closed(s', key) == PeriodLog(s, key) && Forced(s', key) == Forced(s, key) + 1
      else Sent(s', key) == Sent(s, key) && Closed(s', key) == Closed(s, key) && Forced(s', key) == Forced(s, key)
  {
  }

  lemma {:induction false} ForceView(E: Env, s: State, k: Key, key: Key)
    requires Enabled(E, s, EvictMessage(k))
    ensures Is(E, s, Apply(E, s, EvictMessage(k)), When(k == key, Force), key)
  {
    ForceLog(E, s, k, key);
    if k == key { OwnForceView(E, s, key); }
  }

  lemma {:induction false} OwnForceView(E: Env, s: State, key: Key)
    requires Enabled(E, s, EvictMessage(key))
    ensures Is(E, s, Apply(E, s, EvictMessage(key)), Force, key)
  {
    ForceLog(E, s, key, key);
  }

  lemma {:induction false} WorldProjects(E: Env, s: State, step: Step, key: Key)
    requires Shape(E, s) && Enabled(E, s, step) && IsWorldStep(step)
    ensures Projects(E, s, Apply(E, s, step), MovesOf(E, s, step, key), key)
  {
    match step
    case Tick(t) =>
      AgeView(E, s, t, key);
      AsOne(E, s, s.(now := t), Age(Past(E, t, key)), key);
    case Mine(hash, ok) =>
      MineView(E, s, hash, ok, key);
      AsOne(E, s, s.(receipts := s.receipts[hash := ok]), Mined(hash, ok), key);
    case TrackMessage(id, record) =>
      TrackView(E, s, id, record, key);
      AsOne(E, s, ApplyTrack(s, id, record), When(id == key.id && id !in s.tab.tracked, TrackAnew), key);
    case EvictMessage(k) =>
      ForceView(E, s, k, key);
      AsOne(E, s, Apply(E, s, EvictMessage(k)), When(k == key, Force), key);
  }

  lemma {:induction false} MineView(E: Env, s: State, hash: nat, ok: bool, key: Key)
    requires hash !in s.receipts
    ensures Is(E, s, s.(receipts := s.receipts[hash := ok]), Mined(hash, ok), key)
  {
  }

  /** What the eviction loop does to one run. */
  lemma {:induction false} EvictAllAt(tab: Tables, failed: seq<Key>, key: Key)
    requires Distinct(failed)
    ensures Reaches(tab, failed, key) ==> key in failed
    ensures SlotOf(EvictAll(tab, failed), key) ==
      if Reaches(tab, failed, key) && AttemptCount(tab, key) + 1 < MAX_ATTEMPTS then Empty else SlotOf(tab, key)
    ensures AttemptCount(EvictAll(tab, failed), key) == AttemptCount(tab, key) + if Reaches(tab, failed, key) then 1 else 0
    decreases |failed|
  {
    if failed != [] && !EvictionMisses(tab, failed[0]) {
      assert failed == [failed[0]] + failed[1..];
      EvictAllAt(EvictOne(tab, failed[0]), failed[1..], key);
    }
  }

  function PassFinished(s: State): State
    requires s.lock.Pruning?
  {
    s.(tab := EvictAll(s.tab, s.lock.failed), lock := Free)
  }

  lemma {:induction false} UnlistedPassView(E: Env, s: State, key: Key)
    requires LockOk(s) && s.lock.Pruning? && s.lock.todo == {} && key !in s.lock.failed
    ensures Is(E, s, PassFinished(s), Stay, key)
  {
    EvictAllAt(s.tab, s.lock.failed, key);
    EvictAllFrame(s.tab, s.lock.failed);
  }

  lemma {:induction false} ListedPassView(E: Env, s: State, key: Key)
    requires LockOk(s) && s.lock.Pruning? && s.lock.todo == {} && key in s.lock.failed
    ensures Is(E, s, PassFinished(s), if Reaches(s.tab, s.lock.failed, key) then Counted else Unlist, key)
  {
    var tab := EvictAll(s.tab, s.lock.failed);
    EvictAllAt(s.tab, s.lock.failed, key);
    EvictAllFrame(s.tab, s.lock.failed);
    assert Failed(s, key) && View(E, s, key).listing.Failing?;
    if Reaches(s.tab, s.lock.failed, key) { CountedPassView(E, s, tab, key); } else { MissedPassView(E, s, tab, key); }
  }

  lemma {:induction false} CountedPassView(E: Env, s: State, tab: Tables, key: Key)
    requires View(E, s, key).listing.Failing? && tab.tracked == s.tab.tracked
    requires AttemptCount(tab, key) == AttemptCount(s.tab, key) + 1
    requires SlotOf(tab, key) == if AttemptCount(tab, key) < MAX_ATTEMPTS then Empty else SlotOf(s.tab, key)
    ensures Is(E, s, s.(tab := tab, lock := Free), Counted, key)
  {
  }

  lemma {:induction false} MissedPassView(E: Env, s: State, tab: Tables, key: Key)
    requires View(E, s, key).listing.Failing? && tab.tracked == s.tab.tracked
    requires AttemptCount(tab, key) == AttemptCount(s.tab, key) && SlotOf(tab, key) == SlotOf(s.tab, key)
    ensures Is(E, s, s.(tab := tab, lock := Free), Unlist, key)
  {
  }

  lemma {:induction false} FinishPassView(E: Env, s: State, key: Key)
    requires LockOk(s) && s.lock.Pruning? && s.lock.todo == {}
    ensures var m := if key !in s.lock.failed then Stay else if Reaches(s.tab, s.lock.failed, key) then Counted else Unlist;
      Is(E, s, PassFinished(s), m, key)
  {
    if key in s.lock.failed { ListedPassView(E, s, key); } else { UnlistedPassView(E, s, key); }
  }

  /** A key in the questions of a pass, and not among its failures. */
  ghost predicate BeingAsked(lock: Lock, k: Key) {
    lock.Pruning? && k in lock.todo && k in lock.snap && lock.snap[k].Tx? && k !in lock.failed
  }

  lemma {:induction false} AskedListing(lock: Lock, k: Key, fails: bool, key: Key)
    requires BeingAsked(lock, k)
    ensures ListingOf(lock, k) == Asking(lock.snap[k].hash)
    ensures ListingOf(Asked(lock, k, fails), key) ==
      if key != k then ListingOf(lock, key) else if fails then Failing(lock.snap[k].hash) else Unlisted
  {
    if key != k && fails { assert key in Asked(lock, k, fails).failed <==> key in lock.failed; }
  }

  lemma {:induction false} AskedView(E: Env, s: State, k: Key, fails: bool, key: Key)
    requires BeingAsked(s.lock, k) && (fails ==> s.lock.snap[k].hash in s.receipts && !s.receipts[s.lock.snap[k].hash])
    ensures Is(E, s, s.(lock := Asked(s.lock, k, fails)), When(k == key, Answered(fails)), key)
  {
    AskedListing(s.lock, k, fails, key);
  }

  lemma {:induction false} SuccessView(E: Env, s: State, k: Key, key: Key)
    requires BeingAsked(s.lock, k) && s.lock.snap[k].hash in s.receipts && s.receipts[s.lock.snap[k].hash]
    ensures Is(E, s, s.(lock := Asked(s.lock, k, false), tab := PopAttempts(s.tab, k)), When(k == key, Answered(true)), key)
  {
    AskedListing(s.lock, k, false, key);
  }

  lemma {:induction false} ReceiptView(E: Env, s: State, k: Key, found: bool, key: Key)
    requires BeingAsked(s.lock, k) && (found ==> s.lock.snap[k].hash in s.receipts)
    ensures Is(E, s, ApplyReceipt(s, k, found), When(k == key, Answered(found)), key)
  {
    if found && s.receipts[s.lock.snap[k].hash] {
      SuccessView(E, s, k, key);
    } else {
      AskedView(E, s, k, found, key);
    }
  }

  lemma {:induction false} AcquireView(E: Env, s: State, key: Key)
    requires Enabled(E, s, PruneAcquire)
    ensures Is(E, s, Apply(E, s, PruneAcquire), When(key in s.tab.pending && s.tab.pending[key].Tx?, Copied), key)
  {
  }

  lemma {:induction false} UnlockView(E: Env, s: State, key: Key)
    ensures Is(E, s, s.(lock := Free), When(!ListingOf(s.lock, key).Unlisted?, Unlist), key)
  {
  }

  lemma {:induction false} PruneProjects(E: Env, s: State, step: Step, key: Key)
    requires Shape(E, s) && Enabled(E, s, step) && IsPruneStep(step)
    ensures Projects(E, s, Apply(E, s, step), MovesOf(E, s, step, key), key)
  {
    match step
    case PruneAcquire => AcquireView(E, s, key);
    case PruneReceipt(k, found) =>
      assert ListedOk(s, k) && BeingAsked(s.lock, k);
      ReceiptView(E, s, k, found, key);
    case PruneFinish => FinishPassView(E, s, key);
    case PruneRaises => UnlockView(E, s, key);
    AsOne(E, s, Apply(E, s, step), MovesOf(E, s, step, key).first, key);
  }

  lemma {:induction false} QuitProjects(E: Env, s: State, task: nat, t2: real, key: Key)
    requires Shape(E, s) && task in s.tasks && s.tasks[task].Spawned? && s.now <= t2
    ensures Projects(E, s, DropTask(s.(now := t2), task),
                     Moves(Age(Past(E, t2, key)), When(MayStart(s.tasks[task], key), Quit), Stay), key)
  {
    var s2, s' := s.(now := t2), DropTask(s.(now := t2), task);
    AgeView(E, s, t2, key);
    ClockShape(E, s, t2);
    QuitView(E, s2, task, key);
    Same(E, s', s', key);
    AsMany(E, s, s2, s', s', Moves(Age(Past(E, t2, key)), When(MayStart(s.tasks[task], key), Quit), Stay), key);
  }

  lemma {:induction false} ExpireProjects(E: Env, s: State, task: nat, t2: real, key: Key)
    requires Shape(E, s) && task in s.tasks && s.tasks[task].Spawned? && s.now <= t2
    ensures var id := s.tasks[task].id;
      Projects(E, s, DropTask(s.(now := t2, tab := Untrack(s.tab, id, id.Delegated?)), task),
               Moves(Age(Past(E, t2, key)), When(id == key.id, Untracked), When(MayStart(s.tasks[task], key), Quit)), key)
  {
    var id, s2 := s.tasks[task].id, s.(now := t2);
    var s3 := s2.(tab := Untrack(s.tab, id, id.Delegated?));
    AgeView(E, s, t2, key);
    ClockShape(E, s, t2);
    UntrackView(E, s2, id, key);
    if Needs(s.disp, id) { NeededIsTracked(E, s, id); }
    UntrackShape(E, s2, id);
    QuitView(E, s3, task, key);
    AsMany(E, s, s2, s3, DropTask(s3, task),
           Moves(Age(Past(E, t2, key)), When(id == key.id, Untracked), When(MayStart(s.tasks[task], key), Quit)), key);
  }

  lemma {:induction false} OtherBlockProjects(E: Env, s: State, task: nat, run: Key, t2: real, key: Key)
    requires Shape(E, s) && task in s.tasks && s.tasks[task].Spawned? && s.now <= t2 && run != key
    ensures Projects(E, s, Blocking(s, task, run).(now := t2),
                     Moves(Age(Past(E, t2, key)), When(MayStart(s.tasks[task], key), Quit), Stay), key)
  {
    var s2, s' := s.(now := t2), Blocking(s, task, run).(now := t2);
    AgeView(E, s, t2, key);
    ClockShape(E, s, t2);
    OtherBlockView(E, s2, task, run, key);
    Same(E, s', s', key);
    AsMany(E, s, s2, s', s', Moves(Age(Past(E, t2, key)), When(MayStart(s.tasks[task], key), Quit), Stay), key);
  }

  lemma {:induction false} StartProjects(E: Env, s: State, task: nat, t1: real, t2: real, key: Key)
    requires Shape(E, s) && Enabled(E, s, TaskStart(task, t1, t2))
    ensures Projects(E, s, ApplyStart(E, s, task, t1, t2), StartMoves(E, s, task, t1, t2, key), key)
  {
    var id := s.tasks[task].id;
    if !Active(E.terms(id), t1) || id !in s.tab.tracked {
      QuitProjects(E, s, task, t2, key);
    } else if PastLastInterval(E.terms(id), t2) {
      ExpireProjects(E, s, task, t2, key);
    } else if key == Key(id, Interval(E.terms(id), t1)) {
      BlockProjects(E, s, task, t1, t2, key);
    } else {
      OtherBlockProjects(E, s, task, Key(id, Interval(E.terms(id), t1)), t2, key);
    }
  }

  /** A created task starts on a run. */
  function Blocking(s: State, task: nat, run: Key): State {
    s.(tab := SetPending(s.tab, run, Blocked), tasks := s.tasks[task := Working(run)])
  }

  lemma {:induction false} OtherBlockView(E: Env, s: State, task: nat, run: Key, key: Key)
    requires Shape(E, s) && task in s.tasks && s.tasks[task].Spawned? && run != key
    ensures Is(E, s, Blocking(s, task, run), When(MayStart(s.tasks[task], key), Quit), key)
  {
    PutExec(s.tasks, task, Working(run), key);
    PutSpawned(s.tasks, task, Working(run), key);
    QuitView(E, s, task, key);
    DropExec(s.tasks, task, key);
  }

  lemma {:induction false} BlockView(E: Env, s: State, task: nat, key: Key)
    requires SpawnedOk(s) && DispOk(E, s) && task in s.tasks && MayStart(s.tasks[task], key)
    requires key.id in s.tab.tracked && !Past(E, s.now, key)
    ensures Is(E, s, Blocking(s, task, key), Start(task), key)
  {
    OnlyOneMayStart(E, s, task, key);
    OwnBlockView(E, s, task, key);
  }

  lemma {:induction false} OwnBlockView(E: Env, s: State, task: nat, key: Key)
    requires task in s.tasks && s.tasks[task].Spawned? && key.id in s.tab.tracked && !Past(E, s.now, key)
    requires SpawnedFor(s.tasks, key) && !SpawnedFor(s.tasks - {task}, key) && !AskedFor(s.disp, key)
    ensures Is(E, s, Blocking(s, task, key), Start(task), key)
  {
    PutExec(s.tasks, task, Working(key), key);
    PutSpawned(s.tasks, task, Working(key), key);
    DropExec(s.tasks, task, key);
    var v, v' := View(E, s, key), View(E, Blocking(s, task, key), key);
    assert v' == v.(coming := false, slot := Holds(Blocked), exec := v.exec[task := Running]);
  }

  /** The run a task starts on is current at the reading of its interval, and it was asked for. */
  lemma {:induction false} BlockProjects(E: Env, s: State, task: nat, t1: real, t2: real, key: Key)
    requires Shape(E, s) && Enabled(E, s, TaskStart(task, t1, t2))
    requires var id := s.tasks[task].id;
      Active(E.terms(id), t1) && id in s.tab.tracked && !PastLastInterval(E.terms(id), t2)
      && key == Key(id, Interval(E.terms(id), t1))
    ensures Projects(E, s, ApplyStart(E, s, task, t1, t2), Moves(Age(Past(E, t1, key)), Start(task), Age(Past(E, t2, key))), key)
  {
    var s1 := s.(now := t1);
    IntervalMonotone(E.terms(key.id), s.now, t1);
    AgeView(E, s, t1, key);
    ClockShape(E, s, t1);
    BlockView(E, s1, task, key);
    AgeView(E, Blocking(s1, task, key), t2, key);
    AsMany(E, s, s1, Blocking(s1, task, key), ApplyStart(E, s, task, t1, t2),
           Moves(Age(Past(E, t1, key)), Start(task), Age(Past(E, t2, key))), key);
  }

  lemma {:induction false} ReleaseView(E: Env, s: State, task: nat, key: Key)
    requires task in s.tasks && s.tasks[task].Working?
    ensures Is(E, s, DropTask(s.(tab := Release(s.tab, s.tasks[task].key)), task), When(s.tasks[task].key == key, Freed(task)), key)
  {
    DropExec(s.tasks, task, key);
    DropSpawned(s.tasks, task, key);
  }

  lemma {:induction false} ContainerProjects(E: Env, s: State, task: nat, empty: bool, key: Key)
    requires Shape(E, s) && Enabled(E, s, TaskContainerFails(task, empty))
    ensures Projects(E, s, ApplyContainerFailure(E, s, task, empty), ContainerMoves(E, s, task, empty, key), key)
  {
    var own, s' := s.tasks[task].key, ApplyContainerFailure(E, s, task, empty);
    Same(E, s', s', key);
    if own !in s.tab.pending {
      DropView(E, s, task, key);
      AsOne(E, s, s', When(own == key, Drop(task)), key);
    } else {
      var s1 := DropTask(s.(tab := Release(s.tab, own)), task);
      ReleaseView(E, s, task, key);
      TablesShape(E, s, Release(s.tab, own));
      DropShape(E, s.(tab := Release(s.tab, own)), task);
      StopOwnView(E, s1, own.id, key);
      Same(E, s1, s1, key);
      AsMany(E, s, s1, s', s', ContainerMoves(E, s, task, empty, key), key);
    }
  }

  function Sending(s: State, task: nat, key: Key, hash: nat): State {
    s.(tasks := s.tasks[task := Submitted(key, hash)], sent := s.sent[key := Sent(s, key) + [hash]])
  }

  lemma {:induction false} SendView(E: Env, s: State, task: nat, own: Key, hash: nat, key: Key)
    requires task in s.tasks && s.tasks[task] == Working(own)
    ensures Is(E, s, Sending(s, task, own, hash), When(own == key, Send(task, hash)), key)
  {
    PutExec(s.tasks, task, Submitted(own, hash), key);
    PutSpawned(s.tasks, task, Submitted(own, hash), key);
    DropExec(s.tasks, task, key);
    DropSpawned(s.tasks, task, key);
    var v, v' := View(E, s, key), View(E, Sending(s, task, own, hash), key);
    if own == key {
      assert v.exec[task] == Running;
      assert v' == v.(exec := v.exec[task := Delivered(hash)], log := v.log + [hash]);
    } else {
      assert v' == v;
    }
  }

  function Finished(s: State, task: nat, own: Key, hash: nat): State {
    DropTask(s.(tab := SetPending(s.tab, own, Tx(hash))), task)
  }

  lemma {:induction false} FinishView(E: Env, s: State, task: nat, own: Key, hash: nat, key: Key)
    requires task in s.tasks && s.tasks[task] == Submitted(own, hash)
    ensures Is(E, s, Finished(s, task, own, hash), When(own == key, Finish(task)), key)
  {
    DropExec(s.tasks, task, key);
    DropSpawned(s.tasks, task, key);
    var v, v' := View(E, s, key), View(E, Finished(s, task, own, hash), key);
    if own == key {
      assert v.exec[task] == Delivered(hash);
      assert v' == v.(slot := Holds(Tx(hash)), exec := v.exec - {task});
    } else {
      assert v' == v;
    }
  }

  lemma {:induction false} StopAndDropProjects(E: Env, s: State, task: nat, key: Key)
    requires Shape(E, s) && task in s.tasks && !s.tasks[task].Spawned?
    ensures var id := TaskId(s.tasks[task]);
      Projects(E, s, DropTask(s.(tab := StopOwn(s.tab, id)), task),
               Moves(When(s.tasks[task].key == key, Drop(task)), StopMove(id, key), Stay), key)
  {
    var id := TaskId(s.tasks[task]);
    var s' := DropTask(s.(tab := StopOwn(s.tab, id)), task);
    DropView(E, s, task, key);
    DropShape(E, s, task);
    StopOwnView(E, DropTask(s, task), id, key);
    Same(E, s', s', key);
    AsMany(E, s, DropTask(s, task), s', s', Moves(When(s.tasks[task].key == key, Drop(task)), StopMove(id, key), Stay), key);
  }

  lemma {:induction false} TaskProjects(E: Env, s: State, step: Step, key: Key)
    requires Shape(E, s) && Enabled(E, s, step) && IsTaskStep(step)
    ensures Projects(E, s, Apply(E, s, step), MovesOf(E, s, step, key), key)
  {
    match step
    case TaskStart(task, t1, t2) => StartProjects(E, s, task, t1, t2, key);
    case TaskSimulationFails(task) => StopAndDropProjects(E, s, task, key);
    case TaskContainerFails(task, empty) => ContainerProjects(E, s, task, empty, key);
    case TaskSends(task, hash) =>
      SendView(E, s, task, s.tasks[task].key, hash, key);
      AsOne(E, s, Sending(s, task, s.tasks[task].key, hash), When(s.tasks[task].key == key, Send(task, hash)), key);
    case TaskDeliveryFails(task) =>
      if IsCallback(E.terms(TaskId(s.tasks[task]))) {
        StopAndDropProjects(E, s, task, key);
      } else {
        DropView(E, s, task, key);
        AsOne(E, s, Apply(E, s, step), When(s.tasks[task].key == key, Drop(task)), key);
      }
    case TaskRaises(task) =>
      DropView(E, s, task, key);
      AsOne(E, s, Apply(E, s, step), When(s.tasks[task].key == key, Drop(task)), key);
    case TaskFinishes(task) =>
      FinishView(E, s, task, s.tasks[task].key, s.tasks[task].hash, key);
      AsOne(E, s, Finished(s, task, s.tasks[task].key, s.tasks[task].hash), When(s.tasks[task].key == key, Finish(task)), key);
  }

  // ---------------------------------------------------------------------- the dispatcher

  /** The dispatcher's place matters to a run only while it asks about it or gave it up. */
  lemma {:induction false} MoveView(E: Env, s: State, d: Dispatcher, key: Key)
    requires !AskedFor(s.disp, key) && !Doomed(s.disp, key) && !AskedFor(d, key) && !Doomed(d, key)
    ensures View(E, s.(disp := d), key) == View(E, s, key)
  {
  }

  lemma {:induction false} UntrackAndLoopView(E: Env, s: State, id: UnionId, phase: ProcessorProtocol.Phase, todo: set<UnionId>, key: Key)
    requires !s.disp.AskResponded? && !s.disp.AwaitLock?
    ensures Is(E, s, s.(tab := Untrack(s.tab, id, id.Delegated?), disp := Loop(phase, todo)), When(id == key.id, Untracked), key)
  {
    UntrackView(E, s, id, key);
    MoveView(E, s.(tab := Untrack(s.tab, id, id.Delegated?)), Loop(phase, todo), key);
  }

  lemma {:induction false} SpawnView(E: Env, s: State, task: nat, id: UnionId, checked: int, key: Key)
    requires task !in s.tasks
    ensures ExecOf(s.tasks[task := Spawned(id, checked)], key) == ExecOf(s.tasks, key)
    ensures SpawnedFor(s.tasks[task := Spawned(id, checked)], key)
         <==> SpawnedFor(s.tasks, key) || MayStart(Spawned(id, checked), key)
  {
    var tasks := s.tasks[task := Spawned(id, checked)];
    if SpawnedFor(s.tasks, key) {
      var t :| t in s.tasks && MayStart(s.tasks[t], key);
      assert MayStart(tasks[t], key);
    }
    if MayStart(Spawned(id, checked), key) { assert MayStart(tasks[task], key); }
  }

  /** All pending runs of an id lie below its current one, if that is free. */
  lemma {:induction false} FreeRunIsAbove(E: Env, s: State, run: Key)
    requires PendingOk(E, s) && Active(E.terms(run.id), s.now) && run.interval == Interval(E.terms(run.id), s.now)
    requires run !in s.tab.pending
    ensures forall k :: k in s.tab.pending && k.id == run.id ==> k.interval < run.interval
  {
    forall k | k in s.tab.pending && k.id == run.id ensures k.interval < run.interval {
      assert HasStarted(E, s.now, k.id, k.interval);
      assert k != run;
    }
  }

  /** The pending check: a run it finds free may be started from now on, and so may the later
      ones of its id. */
  lemma {:induction false} PendingView(
    E: Env, s: State, phase: ProcessorProtocol.Phase, todo: set<UnionId>, run: Key, replied: bool, task: nat, key: Key)
    requires PendingOk(E, s) && NoneSpawned(s, {run.id}) && !s.disp.AskResponded? && !s.disp.AwaitLock?
    requires run.id in s.tab.tracked && Active(E.terms(run.id), s.now) && run.interval == Interval(E.terms(run.id), s.now)
    requires phase == DelegatedLoop ==> task !in s.tasks && !replied
    ensures Is(E, s, CheckPending(s, phase, todo, run, replied, task),
      When(run.id == key.id && !replied && run !in s.tab.pending && run.interval <= key.interval, Check), key)
  {
    if run in s.tab.pending || (phase == OnChainLoop && replied) {
      MoveView(E, s, Loop(phase, todo), key);
      Same(E, s, s.(disp := Loop(phase, todo)), key);
    } else if run.id == key.id && run.interval <= key.interval {
      FreeRunIsAbove(E, s, run);
      NotSpawnedWhileVisited(s, key);
      FreeView(E, s, phase, todo, run, task, key);
    } else {
      OtherFreeView(E, s, phase, todo, run, task, key);
    }
  }

  lemma {:induction false} OtherFreeView(
    E: Env, s: State, phase: ProcessorProtocol.Phase, todo: set<UnionId>, run: Key, task: nat, key: Key)
    requires !s.disp.AskResponded? && !s.disp.AwaitLock? && !MayStart(Spawned(run.id, run.interval), key)
    requires run.id in s.tab.tracked && run !in s.tab.pending && (phase == DelegatedLoop ==> task !in s.tasks)
    ensures Is(E, s, CheckPending(s, phase, todo, run, false, task), Stay, key)
  {
    if phase == DelegatedLoop { SpawnView(E, s, task, run.id, run.interval, key); }
  }

  /** A run found free may be started from now on, and so may the later ones of its id. */
  lemma {:induction false} FreeView(
    E: Env, s: State, phase: ProcessorProtocol.Phase, todo: set<UnionId>, run: Key, task: nat, key: Key)
    requires !SpawnedFor(s.tasks, key) && !s.disp.AskResponded? && !s.disp.AwaitLock?
    requires run.id in s.tab.tracked && run !in s.tab.pending && key !in s.tab.pending && !Past(E, s.now, key)
    requires run.id == key.id && run.interval <= key.interval && (phase == DelegatedLoop ==> task !in s.tasks)
    ensures Is(E, s, CheckPending(s, phase, todo, run, false, task), Check, key)
  {
    if phase == DelegatedLoop { SpawnView(E, s, task, run.id, run.interval, key); }
  }

  lemma {:induction false} LimitView(E: Env, s: State, phase: ProcessorProtocol.Phase, todo: set<UnionId>, limit: Key, key: Key)
    requires NoneSpawned(s, {limit.id}) && !s.disp.AskResponded? && !s.disp.AwaitLock?
    requires limit.id in s.tab.tracked && AttemptCount(s.tab, limit) >= MAX_ATTEMPTS && limit in s.tab.pending
    ensures Is(E, s, s.(tab := PopAttempts(s.tab, limit), disp := AwaitLock(phase, todo, limit)), When(key == limit, Pop), key)
  {
    if key == limit { NotSpawnedWhileVisited(s, key); }
  }

  lemma {:induction false} LimitProjects(
    E: Env, s: State, phase: ProcessorProtocol.Phase, todo: set<UnionId>, limit: Key, t2: real, t3: real, key: Key)
    requires NoneSpawned(s, {limit.id}) && !s.disp.AskResponded? && !s.disp.AwaitLock?
    requires limit.id in s.tab.tracked && AttemptCount(s.tab, limit) >= MAX_ATTEMPTS && limit in s.tab.pending
    requires s.now <= t2 <= t3
    ensures Projects(E, s, s.(now := t3, tab := PopAttempts(s.tab, limit), disp := AwaitLock(phase, todo, limit)),
                     Moves(Age(Past(E, t2, key)), When(key == limit, Pop), Age(Past(E, t3, key))), key)
  {
    var s2 := s.(now := t2);
    var s3 := s2.(tab := PopAttempts(s.tab, limit), disp := AwaitLock(phase, todo, limit));
    AgeView(E, s, t2, key);
    LimitView(E, s2, phase, todo, limit, key);
    AgeView(E, s3, t3, key);
    AsMany(E, s, s2, s3, s3.(now := t3), Moves(Age(Past(E, t2, key)), When(key == limit, Pop), Age(Past(E, t3, key))), key);
  }

  lemma {:induction false} CrashProjects(E: Env, s: State, t2: real, t3: real, key: Key)
    requires !s.disp.AskResponded? && !s.disp.AwaitLock? && s.now <= t2 <= t3
    ensures Projects(E, s, s.(now := t3, disp := Crashed), Moves(Age(Past(E, t2, key)), Stay, Age(Past(E, t3, key))), key)
  {
    var s2 := s.(now := t2);
    AgeView(E, s, t2, key);
    MoveView(E, s2, Crashed, key);
    AgeView(E, s2.(disp := Crashed), t3, key);
    AsMany(E, s, s2, s2.(disp := Crashed), s.(now := t3, disp := Crashed),
           Moves(Age(Past(E, t2, key)), Stay, Age(Past(E, t3, key))), key);
  }

  lemma {:induction false} PendingProjects(
    E: Env, s: State, phase: ProcessorProtocol.Phase, todo: set<UnionId>, run: Key, t3: real, replied: bool, task: nat, key: Key)
    requires PendingOk(E, s) && NoneSpawned(s, {run.id}) && !s.disp.AskResponded? && !s.disp.AwaitLock?
    requires s.now <= t3 && run.id in s.tab.tracked && Active(E.terms(run.id), t3) && run.interval == Interval(E.terms(run.id), t3)
    requires phase == DelegatedLoop ==> task !in s.tasks && !replied
    ensures Projects(E, s, CheckPending(s.(now := t3), phase, todo, run, replied, task),
      Moves(Age(Past(E, t3, key)),
            When(run.id == key.id && !replied && run !in s.tab.pending && run.interval <= key.interval, Check), Stay), key)
  {
    var s1 := s.(now := t3);
    var s' := CheckPending(s1, phase, todo, run, replied, task);
    AgeView(E, s, t3, key);
    PendingFrame(E, s, s1);
    PendingView(E, s1, phase, todo, run, replied, task, key);
    Same(E, s', s', key);
    AsMany(E, s, s1, s', s', Moves(Age(Past(E, t3, key)),
      When(run.id == key.id && !replied && run !in s.tab.pending && run.interval <= key.interval, Check), Stay), key);
  }

  lemma {:induction false} CheckProjects(
    E: Env, s: State, phase: ProcessorProtocol.Phase, todo: set<UnionId>, id: UnionId, t2: real, t3: real, replied: bool,
    task: nat, key: Key)
    requires PendingOk(E, s) && NoneSpawned(s, {id}) && !s.disp.AskResponded? && !s.disp.AwaitLock?
    requires id in s.tab.tracked && Active(E.terms(id), s.now) && s.now <= t2 <= t3
    requires phase == DelegatedLoop ==> task !in s.tasks && !replied
    requires Active(E.terms(id), t2) && Active(E.terms(id), t3)
    ensures Projects(E, s, CheckRetriesAndPending(E, s, phase, todo, id, t2, t3, replied, task),
                     CheckMoves(E, s, id, t2, t3, !replied, key), key)
  {
    var limit, run := Key(id, Interval(E.terms(id), t2)), Key(id, Interval(E.terms(id), t3));
    if AttemptCount(s.tab, limit) < MAX_ATTEMPTS {
      CheckGoesOn(E, s, phase, todo, id, t2, t3, replied, task, key);
      PendingProjects(E, s, phase, todo, run, t3, replied, task, key);
    } else {
      CheckStops(E, s, phase, todo, id, t2, t3, replied, task, key);
      if limit in s.tab.pending {
        LimitProjects(E, s, phase, todo, limit, t2, t3, key);
      } else {
        CrashProjects(E, s, t2, t3, key);
      }
    }
  }

  lemma {:induction false} CheckGoesOn(
    E: Env, s: State, phase: ProcessorProtocol.Phase, todo: set<UnionId>, id: UnionId, t2: real, t3: real, replied: bool,
    task: nat, key: Key)
    requires Active(E.terms(id), t2) && Active(E.terms(id), t3)
    requires AttemptCount(s.tab, Key(id, Interval(E.terms(id), t2))) < MAX_ATTEMPTS
    ensures var run := Key(id, Interval(E.terms(id), t3));
      CheckRetriesAndPending(E, s, phase, todo, id, t2, t3, replied, task)
        == CheckPending(s.(now := t3), phase, todo, run, replied, task)
      && CheckMoves(E, s, id, t2, t3, !replied, key)
        == Moves(Age(Past(E, t3, key)),
                 When(run.id == key.id && !replied && run !in s.tab.pending && run.interval <= key.interval, Check), Stay)
  {
  }

  lemma {:induction false} CheckStops(
    E: Env, s: State, phase: ProcessorProtocol.Phase, todo: set<UnionId>, id: UnionId, t2: real, t3: real, replied: bool,
    task: nat, key: Key)
    requires Active(E.terms(id), t2) && Active(E.terms(id), t3)
    requires AttemptCount(s.tab, Key(id, Interval(E.terms(id), t2))) >= MAX_ATTEMPTS
    ensures var limit := Key(id, Interval(E.terms(id), t2));
      CheckRetriesAndPending(E, s, phase, todo, id, t2, t3, replied, task) ==
        (if limit in s.tab.pending
         then s.(now := t3, tab := PopAttempts(s.tab, limit), disp := AwaitLock(phase, todo, limit))
         else s.(now := t3, disp := Crashed))
      && CheckMoves(E, s, id, t2, t3, !replied, key)
        == Moves(Age(Past(E, t2, key)), When(key == limit && limit in s.tab.pending, Pop), Age(Past(E, t3, key)))
  {
  }

  lemma {:induction false} ResponsesProjects(E: Env, s: State, count: int, replied: bool, t1: real, t2: real, t3: real, key: Key)
    requires Shape(E, s) && Enabled(E, s, ResponsesAnswer(count, replied, t1, t2, t3))
    ensures Projects(E, s, ApplyResponses(E, s, count, replied, t1, t2, t3),
                     DispatcherMoves(E, s, ResponsesAnswer(count, replied, t1, t2, t3), key), key)
  {
    var id, todo, s' := s.disp.id, s.disp.todo, ApplyResponses(E, s, count, replied, t1, t2, t3);
    if Completed(E.terms(id), WithCount(E, s, count), s.now) {
      UntrackAndLoopView(E, s, id, OnChainLoop, todo, key);
      AsOne(E, s, s', When(id == key.id, Untracked), key);
    } else if id !in s.tab.tracked {
      MoveView(E, s, Loop(OnChainLoop, todo), key);
      Same(E, s, s', key);
    } else if PastLastInterval(E.terms(id), t1) {
      AgeView(E, s, t1, key);
      UntrackAndLoopView(E, s.(now := t1), id, OnChainLoop, todo, key);
      Same(E, s', s', key);
      AsMany(E, s, s.(now := t1), s', s', Moves(Age(Past(E, t1, key)), When(id == key.id, Untracked), Stay), key);
    } else {
      CheckedAt(E, s, id, t2, t3);
      CheckProjects(E, s, OnChainLoop, todo, id, t2, t3, replied, 0, key);
    }
  }

  lemma {:induction false} VisitDelegatedProjects(E: Env, s: State, id: UnionId, t2: real, t3: real, task: nat, key: Key)
    requires Shape(E, s) && Enabled(E, s, VisitDelegated(id, t2, t3, task))
    ensures Projects(E, s, ApplyVisitDelegated(E, s, id, t2, t3, task),
                     DispatcherMoves(E, s, VisitDelegated(id, t2, t3, task), key), key)
  {
    var todo, terms, s' := s.disp.todo - {id}, E.terms(id), ApplyVisitDelegated(E, s, id, t2, t3, task);
    assert TodoOk(s, DelegatedLoop, s.disp.todo) && NoneSpawned(s, {id});
    if !Active(terms, s.now) {
      MoveView(E, s, Loop(DelegatedLoop, todo), key);
      Same(E, s, s', key);
    } else {
      var run := Key(id, Interval(terms, s.now));
      if run in s.tab.pending && s.tab.pending[run].Tx? {
        MoveView(E, s, AskReceipt(todo, id, s.tab.pending[run].hash), key);
        Same(E, s, s', key);
      } else {
        CheckedAt(E, s, id, t2, t3);
        CheckProjects(E, s, DelegatedLoop, todo, id, t2, t3, false, task, key);
      }
    }
  }

  lemma {:induction false} ReceiptAnswerProjects(E: Env, s: State, ok: bool, t2: real, t3: real, task: nat, key: Key)
    requires Shape(E, s) && Enabled(E, s, ReceiptAnswer(ok, t2, t3, task))
    ensures Projects(E, s, Apply(E, s, ReceiptAnswer(ok, t2, t3, task)),
                     DispatcherMoves(E, s, ReceiptAnswer(ok, t2, t3, task), key), key)
  {
    if ok {
      UntrackAndLoopView(E, s, s.disp.id, DelegatedLoop, s.disp.todo, key);
      AsOne(E, s, Apply(E, s, ReceiptAnswer(ok, t2, t3, task)), When(s.disp.id == key.id, Untracked), key);
    } else {
      CheckedAt(E, s, s.disp.id, t2, t3);
      CheckProjects(E, s, DelegatedLoop, s.disp.todo, s.disp.id, t2, t3, false, task, key);
    }
  }

  lemma {:induction false} RespondedView(E: Env, s: State, responded: bool, task: nat, key: Key)
    requires s.disp.AskResponded? && NoneSpawned(s, {s.disp.id}) && task !in s.tasks
    ensures Is(E, s, Apply(E, s, RespondedAnswer(responded, task)), When(responded && AskedFor(s.disp, key), Quit), key)
  {
    var v, v' := View(E, s, key), View(E, Apply(E, s, RespondedAnswer(responded, task)), key);
    if AskedFor(s.disp, key) { NotSpawnedWhileVisited(s, key); }
    if responded {
      assert v' == v.(coming := SpawnedFor(s.tasks, key));
    } else {
      SpawnView(E, s, task, s.disp.id, s.disp.checked, key);
      assert v' == v;
    }
  }

  lemma {:induction false} UndoomView(E: Env, s: State, phase: ProcessorProtocol.Phase, todo: set<UnionId>, key: Key)
    requires s.disp.AwaitLock? && s.lock.Free? && s.disp.key.id !in s.tab.tracked
    ensures Is(E, s, s.(disp := Loop(phase, todo)), When(s.disp.key == key, Undoom), key)
  {
  }

  lemma {:induction false} LockedStopProjects(E: Env, s: State, key: Key)
    requires Shape(E, s) && Enabled(E, s, LockedStop)
    ensures Projects(E, s, Apply(E, s, LockedStop), DispatcherMoves(E, s, LockedStop, key), key)
  {
    var own, s' := s.disp.key, Apply(E, s, LockedStop);
    var s1 := s.(tab := Untrack(s.tab, own.id, own.id.Delegated?));
    UntrackView(E, s, own.id, key);
    UndoomView(E, s1, s.disp.phase, s.disp.todo, key);
    Same(E, s', s', key);
    AsMany(E, s, s1, s', s', Moves(When(own.id == key.id, Untracked), When(own == key, Undoom), Stay), key);
  }

  lemma {:induction false} RaiseView(E: Env, s: State, key: Key)
    requires Shape(E, s) && Enabled(E, s, DispatcherRaises)
    ensures Is(E, s, s.(disp := Died), When(AskedFor(s.disp, key), Quit), key)
  {
    if AskedFor(s.disp, key) { NotSpawnedWhileVisited(s, key); }
  }

  lemma {:induction false} MoveProjects(E: Env, s: State, step: Step, key: Key)
    requires Shape(E, s) && Enabled(E, s, step) && IsMove(step)
    ensures Projects(E, s, Apply(E, s, step), DispatcherMoves(E, s, step, key), key)
  {
    if step.LockedStop? {
      LockedStopProjects(E, s, key);
    } else if step.DispatcherRaises? {
      RaiseView(E, s, key);
      AsOne(E, s, s.(disp := Died), When(AskedFor(s.disp, key), Quit), key);
    } else if step.BeginCycle? {
      BeginView(E, s, key);
      Same(E, s, Apply(E, s, step), key);
    } else {
      MoveView(E, s, Apply(E, s, step).disp, key);
      Same(E, s, Apply(E, s, step), key);
    }
  }

  lemma {:induction false} BeginView(E: Env, s: State, key: Key)
    requires Enabled(E, s, BeginCycle)
    ensures View(E, Apply(E, s, BeginCycle), key) == View(E, s, key)
  {
  }

  lemma {:induction false} VerdictView(E: Env, s: State, step: Step, key: Key)
    requires Shape(E, s) && Enabled(E, s, step) && (step.PayAnswer? || step.CancelAnswer?)
    ensures Is(E, s, Apply(E, s, step), DispatcherMoves(E, s, step, key).first, key)
  {
    var id, todo := s.disp.id, s.disp.todo;
    if (step.PayAnswer? && !step.ok) || (step.CancelAnswer? && step.cancelled) {
      UntrackAndLoopView(E, s, id, OnChainLoop, todo, key);
    } else {
      MoveView(E, s, Apply(E, s, step).disp, key);
    }
  }

  lemma {:induction false} AnswerProjects(E: Env, s: State, step: Step, key: Key)
    requires Shape(E, s) && Enabled(E, s, step) && IsAnswer(step)
    ensures Projects(E, s, Apply(E, s, step), DispatcherMoves(E, s, step, key), key)
  {
    match step
    case ResponsesAnswer(count, replied, t1, t2, t3) => ResponsesProjects(E, s, count, replied, t1, t2, t3, key);
    case VisitDelegated(id, t2, t3, task) => VisitDelegatedProjects(E, s, id, t2, t3, task, key);
    case ReceiptAnswer(ok, t2, t3, task) => ReceiptAnswerProjects(E, s, ok, t2, t3, task, key);
    case RespondedAnswer(responded, task) =>
      RespondedView(E, s, responded, task, key);
      AsOne(E, s, Apply(E, s, step), When(responded && AskedFor(s.disp, key), Quit), key);
    case PayAnswer(_) =>
      VerdictView(E, s, step, key);
      AsOne(E, s, Apply(E, s, step), DispatcherMoves(E, s, step, key).first, key);
    case CancelAnswer(_) =>
      VerdictView(E, s, step, key);
      AsOne(E, s, Apply(E, s, step), DispatcherMoves(E, s, step, key).first, key);
  }

  /** Every step of the protocol is, for every run, the moves `MovesOf` names: without any
      hypothesis on what is tracked, untracked or evicted when. */
  lemma {:induction false} StepProjects(E: Env, s: State, step: Step, key: Key)
    requires Shape(E, s) && Enabled(E, s, step)
    ensures Shape(E, Apply(E, s, step))
    ensures Projects(E, s, Apply(E, s, step), MovesOf(E, s, step, key), key)
  {
    StepKeepsShape(E, s, step);
    if IsTaskStep(step) {
      TaskProjects(E, s, step, key);
    } else if IsPruneStep(step) {
      PruneProjects(E, s, step, key);
    } else if IsWorldStep(step) {
      WorldProjects(E, s, step, key);
    } else if IsMove(step) {
      MoveProjects(E, s, step, key);
    } else {
      AnswerProjects(E, s, step, key);
    }
  }
}
