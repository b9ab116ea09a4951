/** The shared dictionaries of the chain processor and the code that updates them between two
    suspension points (src/chain/processor.py).  Each update is a function on `Tables`; the
    class below performs it in place and is proved to compute that function.  The protocol in
    ProcessorProtocol.dfy interleaves these functions. */
module ProcessorTables {
  import opened Subscriptions

  /** An on-chain subscription id, or the (owner, nonce) pair of a delegated one. */
  datatype UnionId = OnChain(id: int) | Delegated(owner: string, nonce: int)

  datatype Key = Key(id: UnionId, interval: int)

  /** A `_pending` entry: the BLOCKED marker or a transaction hash. */
  datatype Entry = Blocked | Tx(hash: nat)

  /** `tracked` unites the keys of `_subscriptions` and `_delegate_subscriptions`. */
  datatype Tables = Tables(tracked: set<UnionId>, pending: map<Key, Entry>, attempts: map<Key, nat>)

  const MAX_ATTEMPTS: nat := 3

  function AttemptCount(tab: Tables, key: Key): nat {
    if key in tab.attempts then tab.attempts[key] else 0
  }

  // ----------------------------------------------------------------------- table updates

  /** `_stop_tracking`: drops the id from the dictionary that `delegated` selects (if it is
      there) and every pending entry of the id. */
  function Untrack(tab: Tables, uid: UnionId, delegated: bool): Tables {
    Tables(
      if uid.Delegated? == delegated then tab.tracked - {uid} else tab.tracked,
      map k | k in tab.pending && k.id != uid :: tab.pending[k],
      tab.attempts)
  }

  function Track(tab: Tables, uid: UnionId): Tables {
    tab.(tracked := tab.tracked + {uid})
  }

  function Release(tab: Tables, key: Key): Tables {
    tab.(pending := tab.pending - {key})
  }

  function PopAttempts(tab: Tables, key: Key): Tables {
    tab.(attempts := tab.attempts - {key})
  }

  function SetPending(tab: Tables, key: Key, e: Entry): Tables {
    tab.(pending := tab.pending[key := e])
  }

  function CountFailure(tab: Tables, key: Key): Tables {
    tab.(attempts := tab.attempts[key := AttemptCount(tab, key) + 1])
  }

  /** One round of the eviction loop reads a missing pending entry: `pop` raises. */
  predicate EvictionMisses(tab: Tables, key: Key) {
    AttemptCount(tab, key) + 1 < MAX_ATTEMPTS && key !in tab.pending
  }

  /** One round of the eviction loop. */
  function EvictOne(tab: Tables, key: Key): Tables {
    var counted := CountFailure(tab, key);
    if counted.attempts[key] < MAX_ATTEMPTS then Release(counted, key) else counted
  }

  /** The eviction loop of `_prune_failed_txs`; it ends early at the first missing entry. */
  function EvictAll(tab: Tables, failed: seq<Key>): Tables
    decreases |failed|
  {
    if failed == [] then tab
    else if EvictionMisses(tab, failed[0]) then CountFailure(tab, failed[0])
    else EvictAll(EvictOne(tab, failed[0]), failed[1..])
  }

  // ------------------------------------------------------------------ what the updates mean

  predicate Distinct(keys: seq<Key>) {
    forall i, j :: 0 <= i < j < |keys| ==> keys[i] != keys[j]
  }

  /** When every failed key is still pending, eviction counts each of them once and frees
      exactly those below the attempt limit; nothing else moves. */
  lemma {:induction false} EvictAllExact(tab: Tables, failed: seq<Key>)
    requires Distinct(failed) && forall k :: k in failed ==> k in tab.pending
    ensures var out := EvictAll(tab, failed);
      && out.tracked == tab.tracked
      && (forall k :: AttemptCount(out, k) == AttemptCount(tab, k) + if k in failed then 1 else 0)
      && (forall k :: k in out.pending <==>
            k in tab.pending && (k in failed ==> AttemptCount(tab, k) + 1 >= MAX_ATTEMPTS))
      && (forall k :: k in out.pending ==> out.pending[k] == tab.pending[k])
    decreases |failed|
  {
    if failed != [] {
      var next := EvictOne(tab, failed[0]);
      assert failed == [failed[0]] + failed[1..];
      assert failed[0] !in failed[1..];
      EvictAllExact(next, failed[1..]);
    }
  }

  /** Untracking leaves no pending entry of the id behind and keeps all the others, and the
      attempt counts survive it. */
  lemma {:induction false} UntrackExact(tab: Tables, uid: UnionId, delegated: bool)
    ensures var out := Untrack(tab, uid, delegated);
      && (forall k :: k in out.pending <==> k in tab.pending && k.id != uid)
      && (forall k :: k in out.pending ==> out.pending[k] == tab.pending[k])
      && (uid in out.tracked <==> uid in tab.tracked && uid.Delegated? != delegated)
      && (forall other :: other != uid ==> (other in out.tracked <==> other in tab.tracked))
      && (forall k :: AttemptCount(out, k) == AttemptCount(tab, k))
  {
    var out := Untrack(tab, uid, delegated);
    forall k ensures AttemptCount(out, k) == AttemptCount(tab, k) {}
  }

  /** The keys from position i on stand as they did. */
  ghost predicate SameFrom(tab: Tables, now: Tables, failed: seq<Key>, i: nat) {
    forall j :: i <= j < |failed| ==>
      AttemptCount(now, failed[j]) == AttemptCount(tab, failed[j])
      && (failed[j] in now.pending <==> failed[j] in tab.pending)
  }

  lemma {:induction false} RestIsSame(tab: Tables, now: Tables, failed: seq<Key>, i: nat)
    requires Distinct(failed) && i < |failed| && SameFrom(tab, now, failed, i)
    ensures SameFrom(tab, EvictOne(now, failed[i]), failed, i + 1)
  {
    forall j | i + 1 <= j < |failed|
      ensures AttemptCount(EvictOne(now, failed[i]), failed[j]) == AttemptCount(tab, failed[j]) {
      assert failed[j] != failed[i];
    }
  }

  // -------------------------------------------------------------------- the mutable object

  datatype Exhaustion = WithinLimit | LimitReached | KeyError

  /** The ids of the two dictionaries. */
  ghost function TrackedIds(subscriptions: map<int, Terms>, delegated: map<(string, int), Terms>): set<UnionId> {
    (set i | i in subscriptions :: OnChain(i)) + (set d | d in delegated :: Delegated(d.0, d.1))
  }

  class ChainProcessor {
    var subscriptions: map<int, Terms>
    var delegateSubscriptions: map<(string, int), Terms>
    var pending: map<Key, Entry>
    var attempts: map<Key, nat>

    constructor ()
      ensures Value() == Tables({}, map[], map[])
    {
      subscriptions, delegateSubscriptions, pending, attempts := map[], map[], map[], map[];
    }

    ghost function Tracked(): set<UnionId>
      reads this
    {
      TrackedIds(subscriptions, delegateSubscriptions)
    }

    ghost function Value(): Tables
      reads this
    {
      Tables(Tracked(), pending, attempts)
    }

    method TrackCreated(id: int, terms: Terms)
      modifies this`subscriptions
      ensures subscriptions == old(subscriptions)[id := terms]
      ensures Value() == Track(old(Value()), OnChain(id))
    {
      subscriptions := subscriptions[id := terms];
      assert Tracked() == old(Tracked()) + {OnChain(id)};
    }

    method TrackDelegated(owner: string, nonce: int, terms: Terms)
      modifies this`delegateSubscriptions
      ensures delegateSubscriptions == old(delegateSubscriptions)[(owner, nonce) := terms]
      ensures Value() == Track(old(Value()), Delegated(owner, nonce))
    {
      delegateSubscriptions := delegateSubscriptions[(owner, nonce) := terms];
      assert Tracked() == old(Tracked()) + {Delegated(owner, nonce)};
    }

    method StopTracking(uid: UnionId, delegated: bool)
      modifies this`subscriptions, this`delegateSubscriptions, this`pending
      ensures Value() == Untrack(old(Value()), uid, delegated)
    {
      if delegated {
        if uid.Delegated? { delegateSubscriptions := delegateSubscriptions - {(uid.owner, uid.nonce)}; }
      } else {
        if uid.OnChain? { subscriptions := subscriptions - {uid.id}; }
      }
      ghost var tracked := if uid.Delegated? == delegated then old(Tracked()) - {uid} else old(Tracked());
      assert Tracked() == tracked;
      var keys := pending.Keys;
      while keys != {}
        invariant keys <= pending.Keys && Tracked() == tracked && attempts == old(attempts)
        invariant forall k :: k in pending <==> k in old(pending) && (k in keys || k.id != uid)
        invariant forall k :: k in pending ==> pending[k] == old(pending)[k]
        decreases keys
      {
        var k :| k in keys;
        if k.id == uid { pending := pending - {k}; }
        keys := keys - {k};
      }
      assert pending == Untrack(old(Value()), uid, delegated).pending;
    }

    /** Forced re-execution of a delegated run: both entries of its key go. */
    method EvictRun(key: Key)
      modifies this`pending, this`attempts
      ensures Value() == PopAttempts(Release(old(Value()), key), key)
    {
      if key in pending { pending := pending - {key}; }
      if key in attempts { attempts := attempts - {key}; }
    }

    /** The last part of a prune pass; `missed` reports the `KeyError` that ends it early. */
    method EvictFailed(failed: seq<Key>) returns (missed: bool)
      modifies this`pending, this`attempts
      ensures Value() == EvictAll(old(Value()), failed)
      ensures Distinct(failed) ==>
        (missed <==> exists i :: 0 <= i < |failed| && EvictionMisses(old(Value()), failed[i]))
    {
      var i := 0;
      while i < |failed|
        invariant 0 <= i <= |failed|
        invariant subscriptions == old(subscriptions) && delegateSubscriptions == old(delegateSubscriptions)
        invariant EvictAll(old(Value()), failed) == EvictAll(Value(), failed[i..])
        invariant Distinct(failed) ==> SameFrom(old(Value()), Value(), failed, i)
        invariant Distinct(failed) ==> forall j :: 0 <= j < i ==> !EvictionMisses(old(Value()), failed[j])
      {
        var key := failed[i];
        ghost var before := Value();
        assert failed[i..][0] == key && failed[i..][1..] == failed[i + 1..];
        attempts := attempts[key := if key in attempts then attempts[key] + 1 else 1];
        if attempts[key] < MAX_ATTEMPTS {
          if key !in pending {
            assert Distinct(failed) ==> EvictionMisses(old(Value()), failed[i]);
            return true;
          }
          pending := pending - {key};
        }
        assert Value() == EvictOne(before, key);
        if Distinct(failed) { RestIsSame(old(Value()), before, failed, i); }
        i := i + 1;
      }
      assert failed[i..] == [];
      return false;
    }

    /** A successful receipt clears the attempt count of its key. */
    method ClearAttempts(key: Key)
      modifies this`attempts
      ensures Value() == PopAttempts(old(Value()), key)
    {
      if key in attempts { attempts := attempts - {key}; }
    }

    /** `del self._pending[key]` after a container failure. */
    method ReleaseRun(key: Key) returns (found: bool)
      modifies this`pending
      ensures found <==> key in old(pending)
      ensures Value() == if found then Release(old(Value()), key) else old(Value())
    {
      found := key in pending;
      if found { pending := pending - {key}; }
    }

    /** The first part of `_stop_tracking_if_maximum_retries_reached`: the log line reads
        `_pending[key]` unguarded, then the attempts are popped before the lock is taken. */
    method TakeExhausted(key: Key) returns (e: Exhaustion)
      modifies this`attempts
      ensures e == WithinLimit <==> AttemptCount(old(Value()), key) < MAX_ATTEMPTS
      ensures e == KeyError <==> AttemptCount(old(Value()), key) >= MAX_ATTEMPTS && key !in old(pending)
      ensures Value() == if e == LimitReached then PopAttempts(old(Value()), key) else old(Value())
    {
      if key in attempts && attempts[key] >= MAX_ATTEMPTS {
        if key !in pending { return KeyError; }
        attempts := attempts - {key};
        return LimitReached;
      }
      return WithinLimit;
    }
  }
}
