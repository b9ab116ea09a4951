/** One run of the chain processor, that is one (id, interval), as a small machine of its own:
    its view of the shared state and the moves that change it.  ProcessorProjection.dfy proves
    that every step of the protocol is at most three moves of every run.  Here are the
    invariants of a run, at five levels, each with the exact moves it allows. */
module ProcessorRuns {
  import opened ProcessorTables

  datatype Progress = Running | Delivered(hash: nat)

  datatype Slot = Empty | Holds(entry: Entry)

  /** What a prune pass still has to do about the run: ask for the receipt of the hash it
      copied, or count the failure it has found. */
  datatype Listing = Unlisted | Asking(hash: nat) | Failing(hash: nat)

  /** `past`: the interval of the run is over.  `exec`: the tasks executing it.  `coming`: a
      question or a created task of the dispatcher may still start it.  `doomed`: its attempts
      were popped, and the dispatcher waits for the lock to untrack its id. */
  datatype RunView = RunView(
    past: bool,
    tracked: bool,
    slot: Slot,
    count: nat,
    exec: map<nat, Progress>,
    coming: bool,
    listing: Listing,
    doomed: bool,
    log: seq<nat>,
    closed: seq<nat>,
    forced: nat,
    receipts: map<nat, bool>)

  datatype Move =
    | Stay
    | Age(over: bool)
    | Mined(hash: nat, ok: bool)
    | TrackAnew
    | Force
    | Untracked
    | Check
    | Quit
    | Start(task: nat)
    | Send(task: nat, hash: nat)
    | Finish(task: nat)
    | Drop(task: nat)
    | Freed(task: nat)
    | Copied
    | Answered(found: bool)
    | Counted
    | Unlist
    | Pop
    | Undoom

  predicate Can(v: RunView, m: Move) {
    match m
    case Stay => true
    case Age(over) => v.past ==> over
    case Mined(hash, _) => hash !in v.receipts
    case TrackAnew => !v.tracked
    case Force => v.listing.Unlisted?
    case Untracked => true
    case Check => v.tracked && !v.past && v.slot.Empty? && !v.doomed && !v.coming
    case Quit => v.coming
    case Start(task) => v.coming && v.tracked && !v.past && task !in v.exec
    case Send(task, _) => task in v.exec && v.exec[task].Running?
    case Finish(task) => task in v.exec && v.exec[task].Delivered?
    case Drop(task) => task in v.exec
    case Freed(task) => task in v.exec && v.exec[task].Running?
    case Copied => v.listing.Unlisted? && v.slot.Holds? && v.slot.entry.Tx?
    case Answered(found) => v.listing.Asking? && (found ==> v.listing.hash in v.receipts)
    case Counted => v.listing.Failing?
    case Unlist => !v.listing.Unlisted?
    case Pop => v.tracked && v.count >= MAX_ATTEMPTS && v.slot.Holds? && !v.doomed && !v.coming
    case Undoom => v.doomed && !v.tracked && v.listing.Unlisted?
  }

  function Do(v: RunView, m: Move): RunView
    requires Can(v, m)
  {
    match m
    case Stay => v
    case Age(over) => v.(past := over)
    case Mined(hash, ok) => v.(receipts := v.receipts[hash := ok])
    case TrackAnew => v.(tracked := true, log := [], closed := [], forced := 0)
    case Force =>
      v.(slot := Empty, count := 0, log := [], closed := v.closed + v.log, forced := v.forced + 1)
    case Untracked => v.(tracked := false, slot := Empty)
    case Check => v.(coming := true)
    case Quit => v.(coming := false)
    case Start(task) => v.(coming := false, slot := Holds(Blocked), exec := v.exec[task := Running])
    case Send(task, hash) => v.(exec := v.exec[task := Delivered(hash)], log := v.log + [hash])
    case Finish(task) => v.(slot := Holds(Tx(v.exec[task].hash)), exec := v.exec - {task})
    case Drop(task) => v.(exec := v.exec - {task})
    case Freed(task) => v.(slot := Empty, exec := v.exec - {task})
    case Copied => v.(listing := Asking(v.slot.entry.hash))
    case Answered(found) =>
      if !found then v.(listing := Unlisted)
      else if v.receipts[v.listing.hash] then v.(listing := Unlisted, count := 0)
      else v.(listing := Failing(v.listing.hash))
    case Counted =>
      v.(listing := Unlisted, count := v.count + 1, slot := if v.count + 1 < MAX_ATTEMPTS then Empty else v.slot)
    case Unlist => v.(listing := Unlisted)
    case Pop => v.(count := 0, doomed := true)
    case Undoom => v.(doomed := false)
  }

  /** What one step of the protocol is for one run. */
  datatype Moves = Moves(first: Move, second: Move, third: Move)

  predicate CanAll(v: RunView, ms: Moves) {
    Can(v, ms.first) && Can(Do(v, ms.first), ms.second) && Can(Do(Do(v, ms.first), ms.second), ms.third)
  }

  function DoAll(v: RunView, ms: Moves): RunView
    requires CanAll(v, ms)
  {
    Do(Do(Do(v, ms.first), ms.second), ms.third)
  }

  // --------------------------------------------------------------------------- the levels

  /** What is kept: that two tasks never execute the run; that the retry check finds its entry;
      that the run is BLOCKED while it is executed and an eviction is justified; that its retries
      are bounded; that its attempt counter equals its failed transactions. */
  datatype Level = Exclusion | Lookups | Blocking | Retries | Accounts

  ghost predicate Succeeded(receipts: map<nat, bool>, hash: nat) {
    hash in receipts && receipts[hash]
  }

  ghost predicate FailedTx(receipts: map<nat, bool>, hash: nat) {
    hash in receipts && !receipts[hash]
  }

  ghost predicate AllFailed(receipts: map<nat, bool>, hashes: seq<nat>) {
    forall i :: 0 <= i < |hashes| ==> FailedTx(receipts, hashes[i])
  }

  /** At most three transactions, and every one but the last has failed on chain. */
  ghost predicate AtMostOneLive(receipts: map<nat, bool>, hashes: seq<nat>) {
    |hashes| <= MAX_ATTEMPTS && (|hashes| > 0 ==> AllFailed(receipts, hashes[..|hashes| - 1]))
  }

  /** A stale prune pass cannot free the run: its slot still holds a hash, or its failure would
      be the third, or its transaction succeeded. */
  ghost predicate Harmless(v: RunView) {
    v.listing.Unlisted? || (v.slot.Holds? && v.slot.entry.Tx?) || v.count >= 2
    || Succeeded(v.receipts, v.listing.hash)
  }

  /** No task executes the run, and a prune pass lists it only if its hash is still there. */
  ghost predicate LeftInOrder(v: RunView) {
    v.exec == map[] && (v.listing.Unlisted? || v.slot.Holds?)
  }

  /** The task has nothing left to do but to record a transaction that succeeded. */
  ghost predicate Settled(v: RunView, t: nat)
    requires t in v.exec
  {
    v.exec[t].Delivered? && Succeeded(v.receipts, v.exec[t].hash)
  }

  ghost predicate AllSettled(v: RunView) { forall t :: t in v.exec ==> Settled(v, t) }

  /** A prune pass can still count a failure of the run, whose slot is empty. */
  ghost predicate Stale(v: RunView) {
    !v.listing.Unlisted? && v.slot.Empty? && !Succeeded(v.receipts, v.listing.hash)
  }

  /** When the id of the run may be tracked anew. */
  ghost predicate MayTrackAnew(level: Level, v: RunView) {
    match level
    case Exclusion => v.past || (v.exec == map[] && Harmless(v))
    case Lookups =>
      v.past || v.doomed || (AllSettled(v) && !Stale(v) && (v.count < MAX_ATTEMPTS || v.slot.Holds?))
    case Blocking => LeftInOrder(v)
    case Retries => LeftInOrder(v) && (v.past || v.count < MAX_ATTEMPTS || v.slot.Holds?)
    case Accounts => LeftInOrder(v) && v.count == 0 && v.slot.Empty? && !v.doomed
  }

  /** When a delegated message may force the run to execute again. */
  ghost predicate MayForce(level: Level, v: RunView) {
    match level
    case Exclusion => v.exec == map[] || v.past || v.doomed || !v.tracked
    case Lookups => AllSettled(v) || v.past || v.doomed || !v.tracked
    case _ => v.exec == map[]
  }

  ghost predicate Allows(level: Level, v: RunView, m: Move) {
    (m.TrackAnew? ==> MayTrackAnew(level, v)) && (m.Force? ==> MayForce(level, v))
  }

  ghost predicate AllowsAll(level: Level, v: RunView, ms: Moves)
    requires CanAll(v, ms)
  {
    Allows(level, v, ms.first) && Allows(level, Do(v, ms.first), ms.second)
    && Allows(level, Do(Do(v, ms.first), ms.second), ms.third)
  }

  // ------------------------------------------------------------------------ the invariants

  /** One task at most; a pending executed run is BLOCKED; what may still start is free. */
  ghost predicate Alone(v: RunView) {
    (forall t, u :: t in v.exec && u in v.exec ==> t == u)
    && (v.exec != map[] && v.slot.Holds? ==> v.slot.entry.Blocked?)
    && (v.slot == Holds(Blocked) ==> v.tracked)
    && (v.coming ==> v.exec == map[] && v.slot.Empty? && !v.doomed)
    && (v.listing.Failing? ==> FailedTx(v.receipts, v.listing.hash))
  }

  ghost predicate Exclusive(v: RunView) {
    Alone(v)
    && (v.tracked && v.exec != map[] ==> v.slot.Holds? || v.past || v.doomed)
    && (v.tracked && !v.listing.Unlisted? ==>
          (v.slot.Holds? && v.slot.entry.Tx? && v.exec == map[]) || v.past || v.doomed || v.count >= 2
          || Succeeded(v.receipts, v.listing.hash))
  }

  ghost predicate Paid(v: RunView, slot: Slot) { slot.Holds? && slot.entry.Tx? && Succeeded(v.receipts, slot.entry.hash) }

  /** While its id is tracked and its interval lasts: an empty run has attempts left; a run with
      an unsettled task is BLOCKED or paid; a task that may still free the run finds attempts
      left; and a prune pass that may count a failure finds a hash and no unsettled task. */
  ghost predicate ClearNow(v: RunView) {
    (v.slot.Empty? ==> v.count < MAX_ATTEMPTS)
    && (AllSettled(v) || v.slot == Holds(Blocked) || Paid(v, v.slot))
    && (forall t :: t in v.exec && v.exec[t].Running? ==> v.count < MAX_ATTEMPTS)
    && (!v.listing.Unlisted? && !Succeeded(v.receipts, v.listing.hash) ==>
          AllSettled(v) && v.slot.Holds? && v.slot.entry.Tx?)
  }

  ghost predicate Clear(v: RunView) {
    (forall t, u :: t in v.exec && u in v.exec && !Settled(v, t) && !Settled(v, u) ==> t == u)
    && (v.slot == Holds(Blocked) ==> v.tracked)
    && (v.listing.Failing? ==> FailedTx(v.receipts, v.listing.hash))
    && (v.coming ==>
          AllSettled(v) && !v.doomed && v.count < MAX_ATTEMPTS && (v.slot.Empty? || Paid(v, v.slot))
          && (v.listing.Unlisted? || Succeeded(v.receipts, v.listing.hash)))
    && (v.tracked && !v.past && !v.doomed ==> ClearNow(v))
  }

  ghost predicate Guarded(v: RunView) {
    Alone(v)
    && (v.tracked && v.exec != map[] ==> v.slot.Holds?)
    && (!v.listing.Unlisted? ==>
          v.exec == map[] && (v.tracked ==> v.slot.Holds?) && (v.slot.Holds? ==> v.slot.entry == Tx(v.listing.hash)))
  }

  /** The room left for retries of a tracked run whose interval is not over. */
  ghost predicate Room(v: RunView) {
    match v.slot
    case Empty => |v.log| <= v.count < MAX_ATTEMPTS && AllFailed(v.receipts, v.log)
    case Holds(Blocked) =>
      v.count < MAX_ATTEMPTS && |v.log| <= v.count + 1
      && forall t :: t in v.exec && v.exec[t].Running? ==> |v.log| <= v.count
    case Holds(Tx(h)) =>
      (|v.log| > 0 ==> v.log[|v.log| - 1] == h)
      && (Succeeded(v.receipts, h) || v.count >= MAX_ATTEMPTS || |v.log| <= v.count + 1)
  }

  ghost predicate TaskAndLog(v: RunView, t: nat)
    requires t in v.exec
  {
    match v.exec[t]
    case Running => |v.log| < MAX_ATTEMPTS && AllFailed(v.receipts, v.log)
    case Delivered(h) => |v.log| > 0 && v.log[|v.log| - 1] == h
  }

  ghost predicate LogOk(v: RunView) {
    AtMostOneLive(v.receipts, v.log) && forall t :: t in v.exec ==> TaskAndLog(v, t)
  }

  ghost predicate Bounded(v: RunView) {
    Guarded(v) && LogOk(v) && |v.closed| <= MAX_ATTEMPTS * v.forced
    && (v.tracked && !v.doomed && !v.past ==> Room(v))
  }

  /** The counter of a tracked run against its transactions. */
  ghost predicate Balanced(v: RunView) {
    match v.slot
    case Empty => |v.log| == v.count < MAX_ATTEMPTS && AllFailed(v.receipts, v.log)
    case Holds(Blocked) =>
      v.count < MAX_ATTEMPTS && v.count <= |v.log| <= v.count + 1
      && forall t :: t in v.exec ==> |v.log| == v.count + if v.exec[t].Running? then 0 else 1
    case Holds(Tx(h)) =>
      |v.log| > 0 && v.log[|v.log| - 1] == h
      && if Succeeded(v.receipts, h) then v.count < MAX_ATTEMPTS
         else if v.count < MAX_ATTEMPTS then |v.log| == v.count + 1
         else |v.log| == MAX_ATTEMPTS && FailedTx(v.receipts, h)
  }

  /** All three transactions were sent and failed on chain. */
  ghost predicate Exhausted(receipts: map<nat, bool>, log: seq<nat>) {
    |log| == MAX_ATTEMPTS && AllFailed(receipts, log)
  }

  ghost predicate Accounted(v: RunView) {
    Guarded(v) && LogOk(v)
    && (v.tracked && !v.doomed ==> Balanced(v))
    && (v.doomed ==> v.exec == map[] && (v.forced == 0 ==> Exhausted(v.receipts, v.log)))
  }

  ghost predicate Invariant(level: Level, v: RunView) {
    match level
    case Exclusion => Exclusive(v)
    case Lookups => Clear(v)
    case Blocking => Guarded(v)
    case Retries => Bounded(v)
    case Accounts => Accounted(v)
  }

  // ---------------------------------------------------------------------- and their proofs

  /** The moves of a task that executes the run. */
  predicate ByTask(m: Move) { m.Start? || m.Send? || m.Finish? || m.Drop? || m.Freed? }

  /** The moves that change the tables. */
  predicate ByTable(m: Move) { m.TrackAnew? || m.Force? || m.Untracked? || m.Counted? || m.Pop? || m.Undoom? }

  lemma {:induction false} AloneByTask(v: RunView, m: Move)
    requires Alone(v) && Can(v, m) && ByTask(m)
    ensures Alone(Do(v, m))
  {
    match m
    case Start(_) =>
    case Send(_, _) =>
    case Finish(_) =>
    case Drop(_) =>
    case Freed(_) =>
  }

  lemma {:induction false} AloneByTable(v: RunView, m: Move)
    requires Alone(v) && Can(v, m) && ByTable(m)
    ensures Alone(Do(v, m))
  {
  }

  lemma {:induction false} AloneKept(v: RunView, m: Move)
    requires Alone(v) && Can(v, m)
    requires m.Check? ==> v.exec == map[]
    ensures Alone(Do(v, m))
  {
    if ByTask(m) {
      AloneByTask(v, m);
    } else if ByTable(m) {
      AloneByTable(v, m);
    }
  }

  /** Whatever moves a run makes, two tasks never execute it, as long as its id is not tracked
      anew while a task still executes it or a stale prune pass can still free it. */
  lemma {:induction false} ExclusiveKept(v: RunView, m: Move)
    requires Exclusive(v) && Can(v, m) && Allows(Exclusion, v, m)
    ensures Exclusive(Do(v, m))
  {
    AloneKept(v, m);
  }

  lemma {:induction false} GuardedKept(v: RunView, m: Move)
    requires Guarded(v) && Can(v, m) && Allows(Blocking, v, m)
    ensures Guarded(Do(v, m))
  {
    AloneKept(v, m);
  }

  /** A settled task stays so, and more become settled, as receipts come in. */
  lemma {:induction false} ClearAfterMining(v: RunView, hash: nat, ok: bool)
    requires Clear(v) && hash !in v.receipts
    ensures Clear(v.(receipts := v.receipts[hash := ok]))
  {
    var v' := v.(receipts := v.receipts[hash := ok]);
    assert forall h :: Succeeded(v.receipts, h) ==> Succeeded(v'.receipts, h);
    assert forall h :: FailedTx(v.receipts, h) ==> FailedTx(v'.receipts, h);
    assert forall t :: t in v.exec && Settled(v, t) ==> Settled(v', t);
  }

  lemma {:induction false} ClearByTask(v: RunView, m: Move)
    requires Clear(v) && Can(v, m) && ByTask(m)
    ensures Clear(Do(v, m))
  {
    match m
    case Start(_) =>
    case Send(_, _) =>
    case Finish(_) =>
    case Drop(_) =>
    case Freed(_) =>
  }

  lemma {:induction false} ClearByTable(v: RunView, m: Move)
    requires Clear(v) && Can(v, m) && Allows(Lookups, v, m) && ByTable(m)
    ensures Clear(Do(v, m))
  {
  }

  /** A fresh pass copies a hash that no unsettled task executes, or one that succeeded. */
  lemma {:induction false} ClearByCopy(v: RunView)
    requires Clear(v) && Can(v, Copied)
    ensures Clear(Do(v, Copied))
  {
  }

  lemma {:induction false} ClearByAnswer(v: RunView, m: Move)
    requires Clear(v) && Can(v, m) && (m.Answered? || m.Unlist?)
    ensures Clear(Do(v, m))
  {
  }

  lemma {:induction false} ClearByOther(v: RunView, m: Move)
    requires Clear(v) && Can(v, m) && (m.Stay? || m.Age? || m.Check? || m.Quit?)
    ensures Clear(Do(v, m))
  {
    match m
    case Age(_) =>
    case Check =>
    case Quit =>
    case Stay =>
  }

  /** A run is never left empty with three attempts counted, as long as its id is not tracked
      anew in that state, over an unsettled task, or under a stale prune pass. */
  lemma {:induction false} ClearKept(v: RunView, m: Move)
    requires Clear(v) && Can(v, m) && Allows(Lookups, v, m)
    ensures Clear(Do(v, m))
  {
    if m.Mined? {
      ClearAfterMining(v, m.hash, m.ok);
    } else if ByTask(m) {
      ClearByTask(v, m);
    } else if ByTable(m) {
      ClearByTable(v, m);
    } else if m.Copied? {
      ClearByCopy(v);
    } else if m.Answered? || m.Unlist? {
      ClearByAnswer(v, m);
    } else {
      ClearByOther(v, m);
    }
  }

  lemma {:induction false} LastFailed(receipts: map<nat, bool>, hashes: seq<nat>)
    requires |hashes| > 0 && AllFailed(receipts, hashes[..|hashes| - 1])
    requires FailedTx(receipts, hashes[|hashes| - 1])
    ensures AllFailed(receipts, hashes)
  {
    assert hashes == hashes[..|hashes| - 1] + [hashes[|hashes| - 1]];
  }

  lemma {:induction false} LogAfterMining(v: RunView, hash: nat, ok: bool)
    requires LogOk(v) && hash !in v.receipts
    ensures LogOk(v.(receipts := v.receipts[hash := ok]))
  {
    var v' := v.(receipts := v.receipts[hash := ok]);
    assert forall h :: FailedTx(v.receipts, h) ==> FailedTx(v'.receipts, h);
    forall t | t in v'.exec ensures TaskAndLog(v', t) { assert TaskAndLog(v, t); }
  }

  lemma {:induction false} OneMoreLive(receipts: map<nat, bool>, log: seq<nat>, hash: nat)
    requires |log| < MAX_ATTEMPTS && AllFailed(receipts, log)
    ensures AtMostOneLive(receipts, log + [hash])
  {
    assert (log + [hash])[..|log|] == log;
  }

  /** One more transaction is sent only after all earlier ones failed. */
  lemma {:induction false} LogAfterSend(v: RunView, task: nat, hash: nat)
    requires Alone(v) && LogOk(v) && task in v.exec && v.exec[task].Running?
    ensures LogOk(Do(v, Send(task, hash)))
  {
    var v' := v.(exec := v.exec[task := Delivered(hash)], log := v.log + [hash]);
    assert TaskAndLog(v, task);
    OneMoreLive(v.receipts, v.log, hash);
    forall t | t in v'.exec ensures TaskAndLog(v', t) { assert t == task; }
    assert Do(v, Send(task, hash)) == v';
  }

  lemma {:induction false} LogByTask(v: RunView, m: Move)
    requires LogOk(v) && Can(v, m) && (m.Start? || m.Finish? || m.Drop? || m.Freed?)
    requires m.Start? ==> |v.log| < MAX_ATTEMPTS && AllFailed(v.receipts, v.log)
    ensures LogOk(Do(v, m))
  {
    var v' := Do(v, m);
    assert v'.log == v.log && v'.receipts == v.receipts;
    forall t | t in v'.exec ensures TaskAndLog(v', t) {
      if t in v.exec { assert TaskAndLog(v, t); }
    }
  }

  lemma {:induction false} LogByOther(v: RunView, m: Move)
    requires LogOk(v) && Can(v, m) && !ByTask(m) && !m.Mined? && !m.TrackAnew? && !m.Force?
    ensures LogOk(Do(v, m))
  {
    var v' := Do(v, m);
    assert v'.log == v.log && v'.receipts == v.receipts && v'.exec == v.exec;
    forall t | t in v'.exec ensures TaskAndLog(v', t) { assert TaskAndLog(v, t); }
  }

  lemma {:induction false} LogKept(v: RunView, m: Move)
    requires Alone(v) && LogOk(v) && Can(v, m)
    requires m.Start? ==> |v.log| < MAX_ATTEMPTS && AllFailed(v.receipts, v.log)
    requires m.TrackAnew? || m.Force? ==> v.exec == map[]
    ensures LogOk(Do(v, m))
  {
    if m.Mined? {
      LogAfterMining(v, m.hash, m.ok);
    } else if m.Send? {
      LogAfterSend(v, m.task, m.hash);
    } else if ByTask(m) {
      LogByTask(v, m);
    } else if !m.TrackAnew? && !m.Force? {
      LogByOther(v, m);
    }
  }

  lemma {:induction false} RoomByTask(v: RunView, m: Move)
    requires Bounded(v) && Can(v, m) && ByTask(m) && Do(v, m).tracked && !Do(v, m).doomed && !Do(v, m).past
    ensures Room(Do(v, m))
  {
    match m
    case Start(_) =>
    case Send(_, _) =>
    case Finish(_) =>
    case Drop(_) =>
    case Freed(_) =>
  }

  lemma {:induction false} RoomByTable(v: RunView, m: Move)
    requires Bounded(v) && Can(v, m) && Allows(Retries, v, m) && ByTable(m)
    requires Do(v, m).tracked && !Do(v, m).doomed && !Do(v, m).past
    ensures Room(Do(v, m))
  {
    if m.Counted? && |v.log| > 0 { LastFailed(v.receipts, v.log); }
  }

  lemma {:induction false} RoomKept(v: RunView, m: Move)
    requires Bounded(v) && Can(v, m) && Allows(Retries, v, m)
    requires Do(v, m).tracked && !Do(v, m).doomed && !Do(v, m).past
    ensures Room(Do(v, m))
  {
    if ByTask(m) {
      RoomByTask(v, m);
    } else if ByTable(m) {
      RoomByTable(v, m);
    }
  }

  lemma {:induction false} BoundedKept(v: RunView, m: Move)
    requires Bounded(v) && Can(v, m) && Allows(Retries, v, m)
    ensures Bounded(Do(v, m))
  {
    GuardedKept(v, m);
    LogKept(v, m);
    if Do(v, m).tracked && !Do(v, m).doomed && !Do(v, m).past { RoomKept(v, m); }
  }

  /** New receipts never unbalance a run. */
  lemma {:induction false} BalancedAfterMining(v: RunView, hash: nat, ok: bool)
    requires Balanced(v) && hash !in v.receipts
    ensures Balanced(v.(receipts := v.receipts[hash := ok]))
  {
    var receipts := v.receipts[hash := ok];
    assert forall h :: h in v.receipts ==> h in receipts && receipts[h] == v.receipts[h];
    if v.slot == Holds(Tx(hash)) { assert !Succeeded(v.receipts, hash); }
  }

  /** A counted failure frees the run below three attempts and exhausts it at three. */
  lemma {:induction false} BalancedAfterCount(v: RunView)
    requires Balanced(v) && v.listing.Failing? && v.slot == Holds(Tx(v.listing.hash))
    requires FailedTx(v.receipts, v.listing.hash) && AtMostOneLive(v.receipts, v.log)
    ensures Balanced(Do(v, Counted))
  {
    LastFailed(v.receipts, v.log);
  }

  lemma {:induction false} BalancedKept(v: RunView, m: Move)
    requires Accounted(v) && Can(v, m) && Allows(Accounts, v, m)
    requires Do(v, m).tracked && !Do(v, m).doomed
    ensures Balanced(Do(v, m))
  {
    if m.Mined? {
      BalancedAfterMining(v, m.hash, m.ok);
    } else if m.Counted? {
      BalancedAfterCount(v);
    } else if ByTask(m) {
      BalancedByTask(v, m);
    } else if ByTable(m) {
      BalancedByTable(v, m);
    } else if m.Answered? {
      BalancedByAnswer(v, m.found);
    } else {
      BalancedByOther(v, m);
    }
  }

  /** A success clears the counter of a run whose hash is the one that succeeded. */
  lemma {:induction false} BalancedByAnswer(v: RunView, found: bool)
    requires Accounted(v) && Can(v, Answered(found)) && v.tracked && !v.doomed
    ensures Balanced(Do(v, Answered(found)))
  {
  }

  lemma {:induction false} BalancedByOther(v: RunView, m: Move)
    requires Balanced(v) && Can(v, m) && !ByTask(m) && !ByTable(m) && !m.Mined? && !m.Answered?
    ensures Balanced(Do(v, m))
  {
    var v' := Do(v, m);
    assert v'.slot == v.slot && v'.count == v.count && v'.log == v.log && v'.exec == v.exec && v'.receipts == v.receipts;
  }

  lemma {:induction false} BalancedByTask(v: RunView, m: Move)
    requires Accounted(v) && Can(v, m) && ByTask(m) && v.tracked && !v.doomed
    ensures Balanced(Do(v, m))
  {
    match m
    case Start(_) =>
    case Send(_, _) =>
    case Finish(_) =>
    case Drop(_) =>
    case Freed(_) =>
  }

  lemma {:induction false} BalancedByTable(v: RunView, m: Move)
    requires Accounted(v) && Can(v, m) && Allows(Accounts, v, m) && ByTable(m) && !m.Counted?
    requires Do(v, m).tracked && !Do(v, m).doomed
    ensures Balanced(Do(v, m))
  {
  }

  lemma {:induction false} AccountedKept(v: RunView, m: Move)
    requires Accounted(v) && Can(v, m) && Allows(Accounts, v, m)
    ensures Accounted(Do(v, m))
  {
    GuardedKept(v, m);
    LogKept(v, m);
    if m.Pop? { LastFailed(v.receipts, v.log); }
    if Do(v, m).tracked && !Do(v, m).doomed { BalancedKept(v, m); }
  }

  /** Every move a level allows keeps its invariant. */
  lemma {:induction false} MoveKeeps(level: Level, v: RunView, m: Move)
    requires Invariant(level, v) && Can(v, m) && Allows(level, v, m)
    ensures Invariant(level, Do(v, m))
  {
    match level
    case Exclusion => ExclusiveKept(v, m);
    case Lookups => ClearKept(v, m);
    case Blocking => GuardedKept(v, m);
    case Retries => BoundedKept(v, m);
    case Accounts => AccountedKept(v, m);
  }

  lemma {:induction false} MovesKeep(level: Level, v: RunView, ms: Moves)
    requires Invariant(level, v) && CanAll(v, ms) && AllowsAll(level, v, ms)
    ensures Invariant(level, DoAll(v, ms))
  {
    MoveKeeps(level, v, ms.first);
    MoveKeeps(level, Do(v, ms.first), ms.second);
    MoveKeeps(level, Do(Do(v, ms.first), ms.second), ms.third);
  }

  // ------------------------------------------------------------ what moves leave unchanged

  predicate TouchesLog(m: Move) { m.TrackAnew? || m.Force? || m.Send? }

  lemma {:induction false} LogUntouched(v: RunView, m: Move)
    requires Can(v, m) && !TouchesLog(m)
    ensures Do(v, m).log == v.log && Do(v, m).closed == v.closed && Do(v, m).forced == v.forced
  {
    match m
    case Answered(_) =>
    case Counted =>
    case Start(_) =>
    case Finish(_) =>
    case Freed(_) =>
    case Drop(_) =>
    case Mined(_, _) =>
    case Untracked =>
    case _ =>
  }

  lemma {:induction false} LogTouched(v: RunView, m: Move)
    requires Can(v, m)
    ensures Do(v, m).closed + Do(v, m).log ==
      if m.TrackAnew? then [] else if m.Send? then v.closed + v.log + [m.hash] else v.closed + v.log
    ensures Do(v, m).forced == if m.TrackAnew? then 0 else v.forced + if m.Force? then 1 else 0
  {
    if m.Send? {
      assert v.closed + (v.log + [m.hash]) == v.closed + v.log + [m.hash];
    } else if m.Force? {
      assert (v.closed + v.log) + [] == v.closed + v.log;
    } else if !m.TrackAnew? {
      LogUntouched(v, m);
    }
  }

  /** The transactions of a period change with its first tracking and with each sending only. */
  lemma {:induction false} PeriodLogMoves(v: RunView, ms: Moves)
    requires CanAll(v, ms) && !TouchesLog(ms.second) && !TouchesLog(ms.third)
    ensures DoAll(v, ms).closed + DoAll(v, ms).log ==
      if ms.first.TrackAnew? then []
      else if ms.first.Send? then v.closed + v.log + [ms.first.hash]
      else v.closed + v.log
    ensures DoAll(v, ms).forced ==
      if ms.first.TrackAnew? then 0 else v.forced + if ms.first.Force? then 1 else 0
  {
    var v1 := Do(v, ms.first);
    LogTouched(v, ms.first);
    LogUntouched(v1, ms.second);
    LogUntouched(Do(v1, ms.second), ms.third);
  }

  lemma {:induction false} KeepsTracked(v: RunView, m: Move)
    requires Can(v, m) && v.tracked && !m.Untracked?
    ensures Do(v, m).tracked
  {
  }

  ghost predicate Idle(v: RunView) { !v.tracked && v.exec == map[] }

  /** Nothing starts while the id is not tracked. */
  lemma {:induction false} IdleKept(v: RunView, m: Move)
    requires Idle(v) && Can(v, m) && !m.TrackAnew?
    ensures Idle(Do(v, m)) && (Do(v, m).slot == v.slot || Do(v, m).slot.Empty?)
  {
  }
}
