/** Job bookkeeping: the data store with its counters and two databases
    (src/orchestration/store.py), and the job runner on top of it
    (src/orchestration/orchestrator.py). */
module JobStore {
  import opened Strings

  datatype Option<T> = None | Some(value: T)

  // ---------------------------------------------------------------------- keys of messages

  datatype Message = Message(id: string, ip: string)

  /** `f"{ip}:{id}"` */
  function FormatKey(m: Message): string { m.ip + [':'] + m.id }

  /** `key.split(":")[1]`; raises when there is no colon. */
  function GetId(key: string): Option<string> {
    var parts := Split(key, ':');
    if |parts| > 1 then Some(parts[1]) else None
  }

  /** The pattern `f"{address}:*"` for an address without wildcard characters. */
  predicate MatchesAddress(address: string, key: string) {
    |key| > |address| && key[..|address| + 1] == address + [':']
  }

  /** The address has a colon, and its second colon-separated group is this text. */
  predicate SecondGroup(ip: string, text: string) {
    var groups := Split(ip, ':');
    |groups| > 1 && groups[1] == text
  }

  /** The id comes back from a formatted key if and only if neither address nor id contains a
      colon, or the second group of the address happens to be the id. */
  lemma {:induction false} KeyRoundTrip(m: Message)
    ensures GetId(FormatKey(m)) == Some(m.id)
       <==> (Free(m.ip, ':') && Free(m.id, ':')) || SecondGroup(m.ip, m.id)
    ensures !Free(m.ip, ':') ==> exists g :: SecondGroup(m.ip, g) && GetId(FormatKey(m)) == Some(g)
  {
    SplitConcat(m.ip, m.id, ':');
    SplitCount(m.ip, ':');
    CountZero(m.ip, ':');
    if Free(m.ip, ':') {
      SplitAtFirst(m.ip, "", ':');
      if Free(m.id, ':') { SplitAtFirst(m.id, "", ':'); } else { PiecesAreFree(m.id, ':'); }
    } else {
      assert SecondGroup(m.ip, Split(m.ip, ':')[1]);
    }
  }

  lemma {:induction false} PiecesAreFree(s: string, sep: char)
    ensures AllFree(Split(s, sep), sep)
  {
    if s != "" {
      PiecesAreFree(s[1..], sep);
      var rest := Split(s[1..], sep);
      assert Free(rest[0], sep);
      forall p | p in Split(s, sep) ensures Free(p, sep) {
        assert p in rest || p == "" || p == [s[0]] + rest[0];
      }
    }
  }

  /** So a job submitted from the IPv6 loopback address is listed with an empty id. */
  lemma {:induction false} IPv6KeyExample(id: string)
    ensures GetId(FormatKey(Message(id, "::1"))) == Some("")
  {
    SplitConcat("::1", id, ':');
    SplitConcat(":", "1", ':');
    assert "::1" == ":" + [':'] + "1";
    SplitConcat("", "", ':');
    assert ":" == "" + [':'] + "";
  }

  /** A listing pattern matches the keys of its own address and no others, when addresses
      contain no colon. */
  lemma {:induction false} ListingIsPerAddress(address: string, m: Message)
    requires Free(address, ':') && Free(m.ip, ':')
    ensures MatchesAddress(address, FormatKey(m)) <==> m.ip == address
  {
    var key := FormatKey(m);
    var a, b := |address|, |m.ip|;
    assert key[b] == ':' && key[..b] == m.ip;
    if m.ip == address {
      assert key[..a + 1] == address + [':'];
    }
    if MatchesAddress(address, key) {
      assert key[a] == key[..a + 1][a];
      assert forall i :: 0 <= i < a ==> key[i] == key[..a + 1][i] == address[i];
      assert forall i :: 0 <= i < b ==> key[i] == m.ip[i];
      assert a == b;
    }
  }

  // ------------------------------------------------------------------------- the store

  datatype ContainerResult = Output(container: string, data: string) | Error(container: string, text: string)

  datatype Status = Running | Success | Failed

  datatype JobResult = JobResult(
    id: string, status: Status, intermediate: seq<ContainerResult>, result: Option<ContainerResult>)

  datatype Tally = Tally(success: nat, failed: nat)

  /** Counts of finished jobs since the last pop, by location. */
  datatype JobCounters = JobCounters(offchain: Tally, onchain: Tally)

  datatype Store = Store(
    onchainPending: int,
    counters: JobCounters,
    containers: map<string, Tally>,
    pending: map<string, JobResult>,
    completed: map<string, JobResult>)

  const ZERO: Tally := Tally(0, 0)

  function Bump(t: Tally, status: Status): Tally {
    match status
    case Success => t.(success := t.success + 1)
    case Failed => t.(failed := t.failed + 1)
    case Running => t
  }

  function Record(m: Message, status: Status, results: seq<ContainerResult>): JobResult {
    if results == [] then JobResult(m.id, status, [], None)
    else JobResult(m.id, status, results[..|results| - 1], Some(results[|results| - 1]))
  }

  /** The entry is the stored answer of a job with these results: all but the last are intermediate
      results, and the last is the result. */
  ghost predicate HoldsAnswer(entry: JobResult, m: Message, status: Status, results: seq<ContainerResult>) {
    entry.id == m.id && entry.status == status
    && if results == [] then entry.intermediate == [] && entry.result == None
       else entry.result.Some? && entry.intermediate + [entry.result.value] == results
  }

  /** `set_running` */
  function Begin(st: Store, message: Option<Message>): Store {
    match message
    case Some(m) => st.(pending := st.pending[FormatKey(m) := Record(m, Running, [])])
    case None => st.(onchainPending := st.onchainPending + 1)
  }

  /** `set_success` and `set_failed` */
  function Finish(st: Store, message: Option<Message>, status: Status, results: seq<ContainerResult>): Store {
    match message
    case Some(m) =>
      st.(pending := st.pending - {FormatKey(m)},
          completed := st.completed[FormatKey(m) := Record(m, status, results)],
          counters := st.counters.(offchain := Bump(st.counters.offchain, status)))
    case None =>
      st.(onchainPending := st.onchainPending - 1,
          counters := st.counters.(onchain := Bump(st.counters.onchain, status)))
  }

  /** `track_container_status` */
  function TrackContainer(st: Store, container: string, status: Status): Store {
    var tally := if container in st.containers then st.containers[container] else ZERO;
    st.(containers := st.containers[container := Bump(tally, status)])
  }

  function PopJobs(st: Store): Store { st.(counters := JobCounters(ZERO, ZERO)) }

  /** A pending entry runs into its time to live. */
  function Expire(st: Store, key: string): Store { st.(pending := st.pending - {key}) }

  /** `mget` without the keys that are not found. */
  function Found(db: map<string, JobResult>, messages: seq<Message>): seq<JobResult> {
    if messages == [] then []
    else (if FormatKey(messages[0]) in db then [db[FormatKey(messages[0])]] else []) + Found(db, messages[1..])
  }

  /** `get` with intermediate results: the completed entries first, then the pending ones. */
  function Get(st: Store, messages: seq<Message>): seq<JobResult> {
    Found(st.completed, messages) + Found(st.pending, messages)
  }

  /** What a listing of a database for an address returns. */
  function Listing(db: map<string, JobResult>, address: string): set<Option<string>> {
    set key | key in db && MatchesAddress(address, key) :: GetId(key)
  }

  /** The ids of the messages from an address. */
  function IdsFrom(messages: set<Message>, address: string): set<Option<string>> {
    set m | m in messages && m.ip == address :: Some(m.id)
  }

  /** The tally of a container, zero before its first answer. */
  function TallyOf(st: Store, container: string): Tally {
    if container in st.containers then st.containers[container] else ZERO
  }

  /** Counting an answer adds one to its container's tally and to no other. */
  lemma {:induction false} TrackCounts(st: Store, container: string, status: Status, c: string)
    ensures var st', was := TrackContainer(st, container, status), TallyOf(st, c);
      (c in st'.containers <==> c in st.containers || c == container)
      && TallyOf(st', c).success == was.success + (if c == container && status == Success then 1 else 0)
      && TallyOf(st', c).failed == was.failed + (if c == container && status == Failed then 1 else 0)
  {
  }

  class DataStore {
    var onchainPending: int
    var counters: JobCounters
    var containers: map<string, Tally>
    var pending: map<string, JobResult>
    var completed: map<string, JobResult>

    /** Opening the store flushes the pending database and keeps the completed one. */
    constructor (completed: map<string, JobResult>)
      ensures Value() == Store(0, JobCounters(ZERO, ZERO), map[], map[], completed)
    {
      onchainPending, counters := 0, JobCounters(ZERO, ZERO);
      containers, pending, this.completed := map[], map[], completed;
    }

    function Value(): Store
      reads this
    {
      Store(onchainPending, counters, containers, pending, completed)
    }

    /** `_set` */
    method Set(m: Message, status: Status, results: seq<ContainerResult>)
      modifies this`pending, this`completed
      ensures var key := FormatKey(m);
        if status == Running then
          key in pending && HoldsAnswer(pending[key], m, status, results) && pending - {key} == old(pending) - {key}
          && completed == old(completed)
        else
          key in completed && HoldsAnswer(completed[key], m, status, results) && completed - {key} == old(completed) - {key}
          && pending == old(pending) - {key}
      ensures status == Running ==>
        Value() == old(Value()).(pending := old(pending)[FormatKey(m) := Record(m, status, results)])
      ensures status != Running ==>
        Value() == old(Value()).(pending := old(pending) - {FormatKey(m)},
                                 completed := old(completed)[FormatKey(m) := Record(m, status, results)])
    {
      var job := JobResult(
        m.id, status,
        if results == [] then [] else results[..|results| - 1],
        if results == [] then None else Some(results[|results| - 1]));
      if status == Running {
        pending := pending[FormatKey(m) := job];
      } else {
        pending := pending - {FormatKey(m)};
        completed := completed[FormatKey(m) := job];
      }
    }

    method SetRunning(message: Option<Message>)
      modifies this
      ensures message.None? ==> Value() == old(Value()).(onchainPending := old(onchainPending) + 1)
      ensures message.Some? ==>
        var key := FormatKey(message.value);
        key in pending && HoldsAnswer(pending[key], message.value, Running, [])
        && Value() == old(Value()).(pending := old(pending)[key := pending[key]])
      ensures Value() == Begin(old(Value()), message)
    {
      match message
      case Some(m) => Set(m, Running, []);
      case None => onchainPending := onchainPending + 1;
    }

    method SetFinished(message: Option<Message>, status: Status, results: seq<ContainerResult>)
      requires status != Running
      modifies this
      ensures message.Some? ==>
        var key := FormatKey(message.value);
        key in completed && HoldsAnswer(completed[key], message.value, status, results)
        && completed == old(completed)[key := completed[key]] && pending == old(pending) - {key}
        && onchainPending == old(onchainPending) && counters.onchain == old(counters).onchain
        && counters.offchain.success == old(counters).offchain.success + (if status == Success then 1 else 0)
        && counters.offchain.failed == old(counters).offchain.failed + (if status == Failed then 1 else 0)
      ensures message.None? ==>
        completed == old(completed) && pending == old(pending)
        && onchainPending == old(onchainPending) - 1 && counters.offchain == old(counters).offchain
        && counters.onchain.success == old(counters).onchain.success + (if status == Success then 1 else 0)
        && counters.onchain.failed == old(counters).onchain.failed + (if status == Failed then 1 else 0)
      ensures Value() == Finish(old(Value()), message, status, results)
    {
      match message
      case Some(m) =>
        Set(m, status, results);
        counters := counters.(offchain := Bump(counters.offchain, status));
      case None =>
        onchainPending := onchainPending - 1;
        counters := counters.(onchain := Bump(counters.onchain, status));
    }

    method TrackContainerStatus(container: string, status: Status)
      modifies this`containers
      ensures Value() == TrackContainer(old(Value()), container, status)
    {
      var tally := if container in containers then containers[container] else ZERO;
      containers := containers[container := Bump(tally, status)];
    }

    method PopJobCounters() returns (popped: JobCounters)
      modifies this`counters
      ensures popped == old(counters) && Value() == PopJobs(old(Value()))
    {
      popped := counters;
      counters := JobCounters(ZERO, ZERO);
    }

    /** `get_job_ids` for one of the two databases: `ids` are the second pieces of the matching
        keys.  The scan order is not fixed. */
    method IdsFor(address: string, ofPending: bool) returns (ids: set<Option<string>>)
      ensures ids == Listing(if ofPending then pending else completed, address)
    {
      var db := if ofPending then pending else completed;
      var keys := db.Keys;
      ids := {};
      while keys != {}
        invariant keys <= db.Keys
        invariant ids == set key | key in db && key !in keys && MatchesAddress(address, key) :: GetId(key)
        decreases keys
      {
        var key :| key in keys;
        if MatchesAddress(address, key) { ids := ids + {GetId(key)}; }
        keys := keys - {key};
      }
    }
  }

  /** The keys of a database are those of these messages. */
  ghost predicate KeyedBy(db: map<string, JobResult>, messages: set<Message>) {
    forall key :: key in db <==> exists m :: m in messages && key == FormatKey(m)
  }

  /** The listing of an address is exactly the ids of the jobs that address submitted. */
  lemma {:induction false} ListingExact(db: map<string, JobResult>, messages: set<Message>, address: string)
    requires KeyedBy(db, messages) && Free(address, ':')
    requires forall m :: m in messages ==> Free(m.ip, ':') && Free(m.id, ':')
    ensures Listing(db, address) == IdsFrom(messages, address)
  {
    var listed, wanted := Listing(db, address), IdsFrom(messages, address);
    forall x | x in listed ensures x in wanted {
      var key :| key in db && MatchesAddress(address, key) && x == GetId(key);
      var m :| m in messages && key == FormatKey(m);
      ListingIsPerAddress(address, m);
      KeyRoundTrip(m);
    }
    forall x | x in wanted ensures x in listed {
      var m :| m in messages && m.ip == address && x == Some(m.id);
      ListingIsPerAddress(address, m);
      KeyRoundTrip(m);
      assert FormatKey(m) in db;
    }
  }
}
