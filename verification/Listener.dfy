/** The chain listener's sync cursor (src/chain/listener.py): batching, one batch, the snapshot
    sync, startup, and the event loop. */
module Listener {

  // ---------------------------------------------------------------------------- batches

  datatype Batches = Ranges(ranges: seq<(int, int)>) | ValueError

  function Min(a: int, b: int): int { if a < b then a else b }

  /** `[(i, min(i + size - 1, end) + 1) for i in range(start, end + 1, size)]`, upwards. */
  function RangesUp(i: int, end: int, size: int): seq<(int, int)>
    requires size >= 1
    decreases end + 1 - i
  {
    if i > end then [] else [(i, Min(i + size - 1, end) + 1)] + RangesUp(i + size, end, size)
  }

  /** The same with a negative step: `range` then counts down to, excluding, `end + 1`. */
  function RangesDown(i: int, end: int, size: int): seq<(int, int)>
    requires size < 0
    decreases i - end
  {
    if i <= end + 1 then [] else [(i, Min(i + size - 1, end) + 1)] + RangesDown(i + size, end, size)
  }

  /** `get_batches`, on all integers; a zero step raises. */
  function GetBatches(start: int, end: int, size: int): Batches {
    if start == end then Ranges([(start, start + 1)])
    else if end - start + 1 <= size then Ranges([(start, end + 1)])
    else if size == 0 then ValueError
    else if size > 0 then Ranges(RangesUp(start, end, size))
    else Ranges(RangesDown(start, end, size))
  }

  /** Non-empty half-open ranges of at most `size` ids that follow one another from lo to hi. */
  predicate Partition(rs: seq<(int, int)>, lo: int, hi: int, size: int) {
    if rs == [] then lo == hi
    else rs[0].0 == lo && rs[0].0 < rs[0].1 <= lo + size && Partition(rs[1..], rs[0].1, hi, size)
  }

  /** The ids of all ranges, in order. */
  function Listed(rs: seq<(int, int)>): seq<int> {
    if rs == [] then [] else Interval(rs[0].0, rs[0].1) + Listed(rs[1..])
  }

  function Interval(lo: int, hi: int): (r: seq<int>)
    decreases hi - lo
  {
    if lo >= hi then [] else [lo] + Interval(lo + 1, hi)
  }

  lemma {:induction false} RangesUpPartition(i: int, end: int, size: int)
    requires size >= 1 && i <= end + 1
    ensures Partition(RangesUp(i, end, size), i, end + 1, size)
    decreases end + 1 - i
  {
    if i <= end {
      if i + size <= end {
        RangesUpPartition(i + size, end, size);
      } else {
        assert RangesUp(i + size, end, size) == [];
      }
    }
  }

  lemma {:induction false} IntervalConcat(a: int, b: int, c: int)
    requires a <= b <= c
    ensures Interval(a, c) == Interval(a, b) + Interval(b, c)
    decreases b - a
  {
    if a < b { IntervalConcat(a + 1, b, c); }
  }

  lemma {:induction false} PartitionLists(rs: seq<(int, int)>, lo: int, hi: int, size: int)
    requires Partition(rs, lo, hi, size)
    ensures lo <= hi && Listed(rs) == Interval(lo, hi)
  {
    if rs != [] {
      PartitionLists(rs[1..], rs[0].1, hi, size);
      IntervalConcat(lo, rs[0].1, hi);
    }
  }

  /** For a non-empty id range the batches partition it exactly, in order and without overlap,
      if and only if the batch size is positive or the range is a single id. */
  lemma {:induction false} BatchesPartition(start: int, end: int, size: int)
    requires start <= end
    ensures (size >= 1 || start == end) <==>
      (GetBatches(start, end, size).Ranges?
       && Partition(GetBatches(start, end, size).ranges, start, end + 1, if size >= 1 then size else 1))
    ensures size >= 1 ==>
      GetBatches(start, end, size).Ranges?
      && Listed(GetBatches(start, end, size).ranges) == Interval(start, end + 1)
  {
    if size >= 1 {
      if start < end && end - start + 1 > size { RangesUpPartition(start, end, size); }
      PartitionLists(GetBatches(start, end, size).ranges, start, end + 1, size);
    }
  }

  /** The test `_snapshot_sync` makes: a single empty batch. */
  predicate NothingNew(bs: seq<(int, int)>) {
    |bs| == 1 && bs[0].0 == bs[0].1
  }

  /** With a usable batch size it recognises exactly the case that no id is new. */
  lemma {:induction false} NothingNewExact(start: int, end: int, size: int)
    requires size >= 1 && start <= end + 1
    ensures GetBatches(start, end, size).Ranges?
    ensures NothingNew(GetBatches(start, end, size).ranges) <==> start == end + 1
  {
    if start <= end { BatchesPartition(start, end, size); }
  }

  // -------------------------------------------------------------------------- one batch

  /** What one attempt learns about a subscription: is it on its last interval, and does the
      guardian accept it. */
  datatype Verdict = Verdict(last: bool, accepted: bool)

  /** One attempt at a batch: the ids relayed, the ids rejected, and whether it raised. */
  datatype Attempt = Attempt(relayed: set<int>, rejected: set<int>, raised: bool)

  predicate SomeLast(ids: seq<int>, verdict: int -> Verdict) {
    exists k :: 0 <= k < |ids| && verdict(ids[k]).last
  }

  predicate AllAccepted(ids: seq<int>, verdict: int -> Verdict) {
    forall k :: 0 <= k < |ids| ==> verdict(ids[k]).accepted
  }

  function Relayed(ids: seq<int>, verdict: int -> Verdict): set<int> {
    set id | id in ids && verdict(id).accepted
  }

  function Rejected(ids: seq<int>, verdict: int -> Verdict): set<int> {
    set id | id in ids && !verdict(id).accepted
  }

  /** The first id of the batch that the guardian rejects. */
  predicate StopsAt(ids: seq<int>, verdict: int -> Verdict, i: int)
    requires 0 <= i < |ids|
  {
    !verdict(ids[i]).accepted && AllAccepted(ids[..i], verdict)
  }

  /** One attempt of `_sync_batch_subscriptions_creation`.  The log line for a rejected
      subscription reads `sub_id`, a variable that only the loop over subscriptions on their
      last interval ever sets. */
  method SyncBatchAttempt(ids: seq<int>, verdict: int -> Verdict) returns (a: Attempt)
    ensures a.raised <==> !AllAccepted(ids, verdict) && !SomeLast(ids, verdict)
    ensures !a.raised ==> forall id :: id in a.relayed <==> id in ids && verdict(id).accepted
    ensures !a.raised ==> forall id :: id in a.rejected <==> id in ids && !verdict(id).accepted
    ensures a.raised ==> exists i :: 0 <= i < |ids| && StopsAt(ids, verdict, i) && forall id :: id in a.relayed <==> id in ids[..i]
  {
    var subIdSet := false;
    for i := 0 to |ids|
      invariant subIdSet <==> exists k :: 0 <= k < i && verdict(ids[k]).last
    {
      if verdict(ids[i]).last { subIdSet := true; }
    }
    var relayed, rejected := {}, {};
    for i := 0 to |ids|
      invariant relayed == Relayed(ids[..i], verdict)
      invariant rejected == Rejected(ids[..i], verdict)
      invariant rejected != {} ==> subIdSet
    {
      assert ids[..i + 1] == ids[..i] + [ids[i]];
      if !verdict(ids[i]).accepted {
        if !subIdSet {
          NoneRejected(ids[..i], verdict);
          return Attempt(relayed, {ids[i]}, true);
        }
        rejected := rejected + {ids[i]};
      } else {
        relayed := relayed + {ids[i]};
      }
    }
    assert ids[..|ids|] == ids;
    if rejected == {} { NoneRejected(ids, verdict); }
    return Attempt(relayed, rejected, false);
  }

  lemma {:induction false} NoneRejected(ids: seq<int>, verdict: int -> Verdict)
    requires Rejected(ids, verdict) == {}
    ensures AllAccepted(ids, verdict) && forall id :: id in Relayed(ids, verdict) <==> id in ids
  {
    forall k | 0 <= k < |ids| ensures verdict(ids[k]).accepted {
      assert ids[k] in Rejected(ids, verdict) <==> !verdict(ids[k]).accepted;
    }
  }

  lemma {:induction false} VerdictsConcat(a: seq<int>, b: seq<int>, verdict: int -> Verdict)
    ensures Relayed(a + b, verdict) == Relayed(a, verdict) + Relayed(b, verdict)
    ensures Rejected(a + b, verdict) == Rejected(a, verdict) + Rejected(b, verdict)
  {
  }

  // ------------------------------------------------------------------ the cursor and runs

  /** The contract: its head subscription id at every block. */
  datatype World = World(headId: int -> int)

  ghost predicate MonotoneHead(w: World) {
    forall a, b :: a <= b ==> w.headId(a) <= w.headId(b)
  }

  /** The listener's two fields, and the ids it has relayed and rejected so far. */
  datatype Cursor = Cursor(lastBlock: int, lastId: int, relayed: set<int>, rejected: set<int>)

  const MAX_BLOCKS: int := 100

  /** The ids a snapshot sync reads when it is called with this head block. */
  function NewIds(w: World, c: Cursor, head: int): seq<int> {
    Interval(c.lastId + 1, w.headId(head) + 1)
  }

  /** A snapshot sync that returned: every new id has been run through the guardian. */
  function Synced(w: World, c: Cursor, head: int, verdict: int -> Verdict): Cursor {
    c.(relayed := c.relayed + Relayed(NewIds(w, c, head), verdict),
       rejected := c.rejected + Rejected(NewIds(w, c, head), verdict))
  }

  /** One iteration of the event loop that observes `head`.  The sync runs at the head, the
      cursor moves to a target at most 100 blocks ahead. */
  function Iterated(w: World, c: Cursor, head: int, verdict: int -> Verdict): Cursor {
    if c.lastBlock < head then
      var target := c.lastBlock + Min(head - c.lastBlock, MAX_BLOCKS);
      Synced(w, c, head, verdict).(lastBlock := target, lastId := w.headId(target))
    else c
  }

  /** The state after startup at `head` with the configured starting id. */
  function Started(w: World, startId: int, head: int, verdict: int -> Verdict): Cursor {
    Synced(w, Cursor(head, startId, {}, {}), head, verdict).(lastId := w.headId(head))
  }

  /** One loop iteration of a run: the head observed and what the guardian answers during it. */
  datatype Turn = Turn(head: int, verdict: int -> Verdict)

  function Turns(w: World, c: Cursor, turns: seq<Turn>): Cursor
    decreases |turns|
  {
    if turns == [] then c else Turns(w, Iterated(w, c, turns[0].head, turns[0].verdict), turns[1..])
  }

  predicate Handled(c: Cursor, id: int) { id in c.relayed || id in c.rejected }

  ghost predicate CursorOk(w: World, startId: int, c: Cursor) {
    c.lastId == w.headId(c.lastBlock) && forall id :: startId < id <= c.lastId ==> Handled(c, id)
  }

  lemma {:induction false} IntervalMembers(lo: int, hi: int, x: int)
    ensures x in Interval(lo, hi) <==> lo <= x < hi
    decreases hi - lo
  {
    if lo < hi { IntervalMembers(lo + 1, hi, x); }
  }

  lemma {:induction false} IterationKeepsCursor(w: World, startId: int, c: Cursor, head: int, verdict: int -> Verdict)
    requires MonotoneHead(w) && CursorOk(w, startId, c)
    ensures CursorOk(w, startId, Iterated(w, c, head, verdict))
  {
    var c' := Iterated(w, c, head, verdict);
    forall id | startId < id <= c'.lastId ensures Handled(c', id) {
      if id <= c.lastId {
        assert Handled(c, id);
      } else if c.lastBlock < head {
        assert w.headId(c'.lastBlock) <= w.headId(head);
        IntervalMembers(c.lastId + 1, w.headId(head) + 1, id);
      }
    }
  }

  /** No subscription is ever skipped: after startup and any number of loop iterations, with
      any heads observed, every id from the starting id up to the cursor has been relayed to
      the processor or rejected by the guardian, and the cursor is the contract's head id at
      the last synced block. */
  lemma {:induction false} NoSubscriptionSkipped(
    w: World, startId: int, head: int, verdict: int -> Verdict, turns: seq<Turn>)
    requires MonotoneHead(w)
    ensures CursorOk(w, startId, Turns(w, Started(w, startId, head, verdict), turns))
  {
    var c := Started(w, startId, head, verdict);
    forall id | startId < id <= c.lastId ensures Handled(c, id) {
      IntervalMembers(startId + 1, w.headId(head) + 1, id);
    }
    TurnsKeepCursor(w, startId, c, turns);
  }

  lemma {:induction false} TurnsKeepCursor(w: World, startId: int, c: Cursor, turns: seq<Turn>)
    requires MonotoneHead(w) && CursorOk(w, startId, c)
    ensures CursorOk(w, startId, Turns(w, c, turns))
    decreases |turns|
  {
    if turns != [] {
      IterationKeepsCursor(w, startId, c, turns[0].head, turns[0].verdict);
      TurnsKeepCursor(w, startId, Iterated(w, c, turns[0].head, turns[0].verdict), turns[1..]);
    }
  }

  /** A snapshot sync files each id above the cursor, up to the head id, as the guardian says. */
  lemma {:induction false} SyncedExact(w: World, c: Cursor, head: int, verdict: int -> Verdict, id: int)
    ensures var c' := Synced(w, c, head, verdict);
      (id in c'.relayed <==> id in c.relayed || (c.lastId < id <= w.headId(head) && verdict(id).accepted))
      && (id in c'.rejected <==> id in c.rejected || (c.lastId < id <= w.headId(head) && !verdict(id).accepted))
  {
    IntervalMembers(c.lastId + 1, w.headId(head) + 1, id);
  }

  lemma {:induction false} SyncedFiles(w: World, c: Cursor, head: int, verdict: int -> Verdict)
    ensures var c' := Synced(w, c, head, verdict);
      (forall id :: id in c'.relayed <==> id in c.relayed || (c.lastId < id <= w.headId(head) && verdict(id).accepted))
      && (forall id :: id in c'.rejected <==> id in c.rejected || (c.lastId < id <= w.headId(head) && !verdict(id).accepted))
  {
    forall id { SyncedExact(w, c, head, verdict, id); }
  }

  lemma {:induction false} NothingSynced(w: World, c: Cursor, head: int, verdict: int -> Verdict)
    requires NewIds(w, c, head) == []
    ensures Synced(w, c, head, verdict) == c
  {
  }

  /** The k-th of these turns reads the id: its head is new, and the id lies above the cursor the
      turns before it left and not above the head id. */
  ghost predicate Reads(w: World, c: Cursor, turns: seq<Turn>, k: int, id: int)
    requires 0 <= k < |turns|
  {
    var before := Turns(w, c, turns[..k]);
    before.lastBlock < turns[k].head && before.lastId < id <= w.headId(turns[k].head)
  }

  lemma {:induction false} ReadsShift(w: World, c: Cursor, turns: seq<Turn>, k: nat, id: int)
    requires 0 < k < |turns|
    ensures var c' := Iterated(w, c, turns[0].head, turns[0].verdict);
      Reads(w, c, turns, k, id) == Reads(w, c', turns[1..], k - 1, id)
  {
    assert turns[..k][1..] == turns[1..][..k - 1];
    assert turns[..k][0] == turns[0] && turns[1..][k - 1] == turns[k];
  }

  /** Over any turns, an id is newly relayed if and only if a turn that reads it accepts it, and
      newly rejected if and only if a turn that reads it refuses it. */
  lemma {:induction false} FiledExactly(w: World, c: Cursor, turns: seq<Turn>, id: int)
    ensures var c' := Turns(w, c, turns);
      (id in c'.relayed <==>
         id in c.relayed || exists k :: 0 <= k < |turns| && Reads(w, c, turns, k, id) && turns[k].verdict(id).accepted)
      && (id in c'.rejected <==>
            id in c.rejected || exists k :: 0 <= k < |turns| && Reads(w, c, turns, k, id) && !turns[k].verdict(id).accepted)
    decreases |turns|
  {
    if turns != [] {
      var rest, c1 := turns[1..], Iterated(w, c, turns[0].head, turns[0].verdict);
      SyncedExact(w, c, turns[0].head, turns[0].verdict, id);
      FiledExactly(w, c1, rest, id);
      assert turns[..0] == [];
      forall k | 0 < k < |turns|
        ensures Reads(w, c, turns, k, id) == Reads(w, c1, rest, k - 1, id) && turns[k] == rest[k - 1] {
        ReadsShift(w, c, turns, k, id);
      }
      forall k | 0 <= k < |rest| ensures Reads(w, c1, rest, k, id) == Reads(w, c, turns, k + 1, id) && turns[k + 1] == rest[k] {
        ReadsShift(w, c, turns, k + 1, id);
      }
    }
  }

  /** Accepted subscriptions reach the processor: after startup and any turns, an id from the
      starting id up to the cursor that every answer of the run accepts is relayed and never
      rejected. */
  lemma {:induction false} AcceptedAreRelayed(
    w: World, startId: int, head: int, verdict: int -> Verdict, turns: seq<Turn>, id: int)
    requires MonotoneHead(w) && verdict(id).accepted && forall k :: 0 <= k < |turns| ==> turns[k].verdict(id).accepted
    ensures var c := Turns(w, Started(w, startId, head, verdict), turns);
      id !in c.rejected && (startId < id <= c.lastId ==> id in c.relayed)
  {
    NoSubscriptionSkipped(w, startId, head, verdict, turns);
    SyncedExact(w, Cursor(head, startId, {}, {}), head, verdict, id);
    FiledExactly(w, Started(w, startId, head, verdict), turns, id);
    assert startId < id <= Turns(w, Started(w, startId, head, verdict), turns).lastId ==>
      Handled(Turns(w, Started(w, startId, head, verdict), turns), id);
  }

  /** A rejected id was refused, and a relayed one accepted, at startup or in some turn. */
  lemma {:induction false} FiledForCause(
    w: World, startId: int, head: int, verdict: int -> Verdict, turns: seq<Turn>, id: int)
    ensures var c := Turns(w, Started(w, startId, head, verdict), turns);
      (id in c.rejected ==> !verdict(id).accepted || exists k :: 0 <= k < |turns| && !turns[k].verdict(id).accepted)
      && (id in c.relayed ==> verdict(id).accepted || exists k :: 0 <= k < |turns| && turns[k].verdict(id).accepted)
  {
    SyncedExact(w, Cursor(head, startId, {}, {}), head, verdict, id);
    FiledExactly(w, Started(w, startId, head, verdict), turns, id);
  }

  /** Because the sync runs at the head and the cursor moves only to the target, some ids are
      read twice: exactly those between the head id at the target and the head id at the head
      are read again by the next iteration that syncs. */
  lemma {:induction false} ReadAgainExact(
    w: World, c: Cursor, head: int, verdict: int -> Verdict, next: int, id: int)
    requires MonotoneHead(w) && c.lastId == w.headId(c.lastBlock)
    requires c.lastBlock < head <= next && Iterated(w, c, head, verdict).lastBlock < next
    ensures var c' := Iterated(w, c, head, verdict);
      id in NewIds(w, c, head) && id in NewIds(w, c', next) <==> c'.lastId < id <= w.headId(head)
  {
    var c' := Iterated(w, c, head, verdict);
    IntervalMembers(c.lastId + 1, w.headId(head) + 1, id);
    IntervalMembers(c'.lastId + 1, w.headId(next) + 1, id);
    assert w.headId(c.lastBlock) <= w.headId(c'.lastBlock) && w.headId(head) <= w.headId(next);
  }

  /** The synced block never falls and never passes the head observed. */
  lemma {:induction false} BlockProgress(w: World, c: Cursor, head: int, verdict: int -> Verdict)
    ensures var c' := Iterated(w, c, head, verdict);
      c.lastBlock <= c'.lastBlock && (c.lastBlock < head ==> c.lastBlock < c'.lastBlock <= head)
  {
  }

  /** ceil(n / 100) for n >= 0. */
  function Chunks(n: nat): nat { (n + MAX_BLOCKS - 1) / MAX_BLOCKS }

  /** With a fixed head, n iterations advance the cursor by 100 blocks each until the head is
      reached: exactly after ceil of the distance over 100 iterations, and not before. */
  lemma {:induction false} CatchUpExact(w: World, c: Cursor, head: int, turns: seq<Turn>)
    requires c.lastBlock <= head && forall k :: 0 <= k < |turns| ==> turns[k].head == head
    ensures Turns(w, c, turns).lastBlock == Min(c.lastBlock + MAX_BLOCKS * |turns|, head)
    ensures Turns(w, c, turns).lastBlock == head <==> |turns| >= Chunks(head - c.lastBlock)
    decreases |turns|
  {
    if turns != [] {
      CatchUpExact(w, Iterated(w, c, head, turns[0].verdict), head, turns[1..]);
    }
  }

  // -------------------------------------------------------------------- the mutable object

  /** The sync call at this head returns: the batches are well formed and no attempt at one of
      them runs into the unset variable. */
  ghost predicate SyncReturns(w: World, c: Cursor, size: int, head: int, verdict: int -> Verdict) {
    c.lastId <= w.headId(head) && size >= 1
    && forall b :: b in GetBatches(c.lastId + 1, w.headId(head), size).ranges ==>
         AllAccepted(Interval(b.0, b.1), verdict) || SomeLast(Interval(b.0, b.1), verdict)
  }

  lemma {:induction false} BatchesAreNewIds(w: World, c: Cursor, size: int, head: int)
    requires c.lastId <= w.headId(head) && size >= 1
    ensures var bs := GetBatches(c.lastId + 1, w.headId(head), size);
      bs.Ranges? && NewIds(w, c, head) == if NothingNew(bs.ranges) then [] else Listed(bs.ranges)
  {
    NothingNewExact(c.lastId + 1, w.headId(head), size);
    if c.lastId < w.headId(head) { BatchesPartition(c.lastId + 1, w.headId(head), size); }
  }

  /** The cursor after n iterations that observe the same head. */
  function Repeated(w: World, c: Cursor, head: int, verdict: int -> Verdict, n: nat): Cursor {
    if n == 0 then c else Iterated(w, Repeated(w, c, head, verdict, n - 1), head, verdict)
  }

  class ChainListener {
    const batchSize: int
    const startingSubId: int
    var lastBlock: int
    var lastSubscriptionId: int
    var relayed: set<int>
    var rejected: set<int>

    constructor (batchSize: int, startingSubId: int)
      ensures this.batchSize == batchSize && this.startingSubId == startingSubId
      ensures relayed == {} && rejected == {}
    {
      this.batchSize, this.startingSubId := batchSize, startingSubId;
      lastBlock, lastSubscriptionId, relayed, rejected := 0, 0, {}, {};
    }

    ghost function Value(): Cursor
      reads this
    {
      Cursor(lastBlock, lastSubscriptionId, relayed, rejected)
    }

    method SnapshotSync(w: World, head: int, verdict: int -> Verdict)
      requires SyncReturns(w, Value(), batchSize, head, verdict)
      modifies this`relayed, this`rejected
      ensures forall id :: id in relayed <==>
        id in old(relayed) || (lastSubscriptionId < id <= w.headId(head) && verdict(id).accepted)
      ensures forall id :: id in rejected <==>
        id in old(rejected) || (lastSubscriptionId < id <= w.headId(head) && !verdict(id).accepted)
      ensures Value() == Synced(w, old(Value()), head, verdict)
    {
      ghost var c := Value();
      SyncedFiles(w, c, head, verdict);
      BatchesAreNewIds(w, c, batchSize, head);
      var headSubId := w.headId(head);
      var start := lastSubscriptionId + 1;
      var batches := GetBatches(start, headSubId, batchSize).ranges;
      if |batches| == 1 && batches[0].0 == batches[0].1 {
        NothingSynced(w, c, head, verdict);
        return;
      }
      SyncBatches(batches, verdict);
      assert Value() == Synced(w, c, head, verdict);
    }

    /** The loop over the batches; each batch is retried until an attempt returns. */
    method SyncBatches(batches: seq<(int, int)>, verdict: int -> Verdict)
      requires forall b :: b in batches ==>
        AllAccepted(Interval(b.0, b.1), verdict) || SomeLast(Interval(b.0, b.1), verdict)
      modifies this`relayed, this`rejected
      ensures relayed == old(relayed) + Relayed(Listed(batches), verdict)
      ensures rejected == old(rejected) + Rejected(Listed(batches), verdict)
    {
      var i := 0;
      assert batches[0..] == batches;
      while i < |batches|
        invariant 0 <= i <= |batches|
        invariant relayed + Relayed(Listed(batches[i..]), verdict) == old(relayed) + Relayed(Listed(batches), verdict)
        invariant rejected + Rejected(Listed(batches[i..]), verdict) == old(rejected) + Rejected(Listed(batches), verdict)
      {
        var batch := batches[i];
        assert batches[i..][0] == batch && batches[i..][1..] == batches[i + 1..];
        VerdictsConcat(Interval(batch.0, batch.1), Listed(batches[i + 1..]), verdict);
        var attempt := SyncBatchAttempt(Interval(batch.0, batch.1), verdict);
        assert batch in batches && !attempt.raised;
        forall id ensures id in attempt.relayed <==> id in Relayed(Interval(batch.0, batch.1), verdict) {}
        forall id ensures id in attempt.rejected <==> id in Rejected(Interval(batch.0, batch.1), verdict) {}
        relayed, rejected := relayed + attempt.relayed, rejected + attempt.rejected;
        i := i + 1;
      }
      assert Listed(batches[i..]) == [];
    }

    method Setup(w: World, head: int, verdict: int -> Verdict)
      requires relayed == {} && rejected == {}
      requires SyncReturns(w, Cursor(head, startingSubId, {}, {}), batchSize, head, verdict)
      modifies this
      ensures lastBlock == head && lastSubscriptionId == w.headId(head)
      ensures forall id :: id in relayed <==> startingSubId < id <= w.headId(head) && verdict(id).accepted
      ensures forall id :: id in rejected <==> startingSubId < id <= w.headId(head) && !verdict(id).accepted
      ensures Value() == Started(w, startingSubId, head, verdict)
    {
      lastBlock := head;
      lastSubscriptionId := startingSubId;
      SnapshotSync(w, head, verdict);
      lastSubscriptionId := w.headId(head);
    }

    /** The body of the event loop for one observed head. */
    method Iterate(w: World, head: int, verdict: int -> Verdict)
      requires lastBlock < head ==> SyncReturns(w, Value(), batchSize, head, verdict)
      modifies this
      ensures old(lastBlock) >= head ==> Value() == old(Value())
      ensures old(lastBlock) < head ==>
        lastBlock == (if head - old(lastBlock) < 100 then head else old(lastBlock) + 100)
        && lastSubscriptionId == w.headId(lastBlock)
      ensures old(lastBlock) < head ==> forall id :: id in relayed <==>
        id in old(relayed) || (old(lastSubscriptionId) < id <= w.headId(head) && verdict(id).accepted)
      ensures old(lastBlock) < head ==> forall id :: id in rejected <==>
        id in old(rejected) || (old(lastSubscriptionId) < id <= w.headId(head) && !verdict(id).accepted)
      ensures Value() == Iterated(w, old(Value()), head, verdict)
    {
      if lastBlock < head {
        var numBlocks := if head - lastBlock < MAX_BLOCKS then head - lastBlock else MAX_BLOCKS;
        var target := lastBlock + numBlocks;
        var headSubId := w.headId(target);
        SnapshotSync(w, head, verdict);
        lastBlock := target;
        lastSubscriptionId := headSubId;
      }
    }

    /** The event loop while the head stays put and the guardian keeps its verdicts; every sync
        call it makes returns. */
    method CatchUp(w: World, head: int, verdict: int -> Verdict) returns (iterations: nat)
      requires lastBlock <= head && MonotoneHead(w) && lastSubscriptionId == w.headId(lastBlock)
      requires forall n: nat :: n < Chunks(head - lastBlock) ==>
        SyncReturns(w, Repeated(w, Value(), head, verdict, n), batchSize, head, verdict)
      modifies this
      ensures lastBlock == head && lastSubscriptionId == w.headId(head)
      ensures iterations == Chunks(head - old(lastBlock))
      ensures Value() == Repeated(w, old(Value()), head, verdict, iterations)
    {
      iterations := 0;
      while lastBlock < head
        invariant old(lastBlock) <= lastBlock <= head && lastSubscriptionId == w.headId(lastBlock)
        invariant iterations + Chunks(head - lastBlock) == Chunks(head - old(lastBlock))
        invariant Value() == Repeated(w, old(Value()), head, verdict, iterations)
        decreases head - lastBlock
      {
        assert Chunks(head - lastBlock) >= 1;
        Iterate(w, head, verdict);
        iterations := iterations + 1;
      }
    }
  }
}
