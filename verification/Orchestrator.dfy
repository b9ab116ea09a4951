/** The job runner (src/orchestration/orchestrator.py, `_run_job`): one job alone, and any
    interleaving of jobs over the shared store. */
module Orchestrator {
  import opened Strings
  import opened JobStore

  datatype Location = OnChainLoc | OffChainLoc | StreamLoc

  datatype JobInput = JobInput(source: Location, destination: Location, data: string)

  datatype ContainerInput = ContainerInput(source: Location, destination: Location, data: string, requiresProof: bool)

  /** A container's answer: a JSON body, or anything that raised. */
  datatype Reply = Json(data: string) | Broken(text: string)

  function ResultOf(container: string, reply: Reply): ContainerResult {
    match reply
    case Json(data) => Output(container, data)
    case Broken(text) => Error(container, text)
  }

  /** What container k of n is sent, given the results so far. */
  function InputFor(job: JobInput, n: nat, results: seq<ContainerResult>, k: nat, proof: bool): ContainerInput
    requires k <= |results| && (k > 0 ==> results[k - 1].Output?)
  {
    ContainerInput(
      if k == 0 then job.source else OffChainLoc,
      if k == n - 1 then job.destination else OffChainLoc,
      if k == 0 then job.data else results[k - 1].data,
      proof)
  }

  /** Result k is what container k answered to its input. */
  predicate AnswersAt(
    job: JobInput, containers: seq<string>, proof: bool, reply: (nat, ContainerInput) -> Reply,
    results: seq<ContainerResult>, k: nat)
    requires k < |results| <= |containers| && (k > 0 ==> results[k - 1].Output?)
  {
    results[k] == ResultOf(containers[k], reply(k, InputFor(job, |containers|, results, k, proof)))
  }

  /** The results answer a prefix of the containers in order: outputs, then possibly one error. */
  predicate IsChain(
    job: JobInput, containers: seq<string>, proof: bool, reply: (nat, ContainerInput) -> Reply, results: seq<ContainerResult>)
  {
    |results| <= |containers|
    && (forall k :: 0 <= k < |results| - 1 ==> results[k].Output?)
    && (forall k :: 0 <= k < |results| ==> AnswersAt(job, containers, proof, reply, results, k))
  }

  predicate AllOutputs(results: seq<ContainerResult>) {
    forall k :: 0 <= k < |results| ==> results[k].Output?
  }

  function TrackAll(st: Store, results: seq<ContainerResult>): Store {
    if results == [] then st
    else
      var last := results[|results| - 1];
      TrackContainer(TrackAll(st, results[..|results| - 1]), last.container, if last.Output? then Success else Failed)
  }

  /** A job ends with its results, or raises at a container without a port. */
  datatype Ending = Ended(results: seq<ContainerResult>) | PortMissing(results: seq<ContainerResult>)

  lemma {:induction false} FinishCommutes(st: Store, message: Option<Message>, status: Status, results: seq<ContainerResult>, c: string, cs: Status)
    ensures Finish(TrackContainer(st, c, cs), message, status, results) == TrackContainer(Finish(st, message, status, results), c, cs)
  {
  }

  lemma {:induction false} SameInput(
    job: JobInput, n: nat, results: seq<ContainerResult>, next: ContainerResult, k: nat, proof: bool)
    requires k <= |results| && AllOutputs(results)
    ensures InputFor(job, n, results + [next], k, proof) == InputFor(job, n, results, k, proof)
  {
    if k > 0 { assert (results + [next])[k - 1] == results[k - 1]; }
  }

  /** An error ends the job as failed, and is counted for its container. */
  lemma {:induction false} BrokenLeaves(st: Store, message: Option<Message>, n: nat, results: seq<ContainerResult>, error: ContainerResult)
    requires error.Error?
    ensures TrackContainer(
        Finish(TrackAll(Begin(st, message), results), message, Failed, results + [error]), error.container, Failed)
      == StoreAfter(st, message, n, Ended(results + [error]))
  {
    var longer := results + [error];
    TrackExtends(Begin(st, message), results, error);
    FinishCommutes(TrackAll(Begin(st, message), results), message, Failed, longer, error.container, Failed);
    assert longer[|results|].Error?;
  }

  /** The output of container k is the input of the next. */
  lemma {:induction false} NextInput(job: JobInput, n: nat, results: seq<ContainerResult>, k: nat, proof: bool)
    requires |results| == k + 1 && results[k].Output? && k + 1 < n
    ensures InputFor(job, n, results, k + 1, proof) ==
      ContainerInput(OffChainLoc, if k == n - 2 then job.destination else OffChainLoc, results[k].data, proof)
  {
  }

  lemma {:induction false} ChainExtends(
    job: JobInput, containers: seq<string>, proof: bool, reply: (nat, ContainerInput) -> Reply,
    results: seq<ContainerResult>, next: ContainerResult)
    requires IsChain(job, containers, proof, reply, results) && AllOutputs(results) && |results| < |containers|
    requires next == ResultOf(containers[|results|],
                              reply(|results|, InputFor(job, |containers|, results, |results|, proof)))
    ensures IsChain(job, containers, proof, reply, results + [next])
  {
    var longer := results + [next];
    assert forall k :: 0 <= k < |results| ==> longer[k] == results[k];
    forall k | 0 <= k < |longer| ensures AnswersAt(job, containers, proof, reply, longer, k) {
      SameInput(job, |containers|, results, next, k, proof);
      if k < |results| { assert AnswersAt(job, containers, proof, reply, results, k); }
    }
  }

  lemma {:induction false} TrackExtends(st: Store, results: seq<ContainerResult>, next: ContainerResult)
    ensures TrackAll(st, results + [next])
         == TrackContainer(TrackAll(st, results), next.container, if next.Output? then Success else Failed)
  {
    assert (results + [next])[..|results|] == results;
  }

  /** What a job of n containers leaves in the store when it ends like this. */
  function StoreAfter(st: Store, message: Option<Message>, n: nat, e: Ending): Store {
    var tracked := TrackAll(Begin(st, message), e.results);
    if e.PortMissing? then tracked
    else Finish(tracked, message, if |e.results| == n && AllOutputs(e.results) then Success else Failed, e.results)
  }

  /** How a job that has these outputs so far ends. */
  function JobRun(
    ports: map<string, int>, job: JobInput, containers: seq<string>, proof: bool, reply: (nat, ContainerInput) -> Reply,
    results: seq<ContainerResult>): Ending
    requires |results| <= |containers| && AllOutputs(results)
    decreases |containers| - |results|
  {
    var k := |results|;
    if k == |containers| then Ended(results)
    else if containers[k] !in ports then PortMissing(results)
    else
      var next := ResultOf(containers[k], reply(k, InputFor(job, |containers|, results, k, proof)));
      if next.Error? then Ended(results + [next]) else JobRun(ports, job, containers, proof, reply, results + [next])
  }

  ghost predicate ChainEnds(
    ports: map<string, int>, job: JobInput, containers: seq<string>, proof: bool, reply: (nat, ContainerInput) -> Reply, e: Ending)
  {
    IsChain(job, containers, proof, reply, e.results)
    && (e.PortMissing? <==>
          AllOutputs(e.results) && |e.results| < |containers| && containers[|e.results|] !in ports)
    && (e.Ended? ==>
          (|e.results| == |containers| && AllOutputs(e.results))
          || (e.results != [] && e.results[|e.results| - 1].Error?))
    && forall k :: 0 <= k < |e.results| ==> containers[k] in ports
  }

  /** A job ends with results that answer a prefix of its containers in order, each fed the output
      before it: all of them, up to the first error, or up to a container without a port. */
  lemma {:induction false} JobRunIsChain(
    ports: map<string, int>, job: JobInput, containers: seq<string>, proof: bool, reply: (nat, ContainerInput) -> Reply,
    results: seq<ContainerResult>)
    requires IsChain(job, containers, proof, reply, results) && AllOutputs(results)
    requires forall k :: 0 <= k < |results| ==> containers[k] in ports
    ensures ChainEnds(ports, job, containers, proof, reply, JobRun(ports, job, containers, proof, reply, results))
    decreases |containers| - |results|
  {
    var k := |results|;
    if k < |containers| && containers[k] in ports {
      var next := ResultOf(containers[k], reply(k, InputFor(job, |containers|, results, k, proof)));
      ChainExtends(job, containers, proof, reply, results, next);
      if next.Output? {
        JobRunIsChain(ports, job, containers, proof, reply, results + [next]);
      } else {
        assert (results + [next])[k].Error?;
      }
    }
  }

  /** `_run_job`, with the replies of the containers as a function of position and input; the
      lemma above says what its ending is. */
  method RunJob(
    store: DataStore, ports: map<string, int>, job: JobInput, containers: seq<string>,
    message: Option<Message>, proof: bool, reply: (nat, ContainerInput) -> Reply)
    returns (e: Ending)
    modifies store
    ensures e == JobRun(ports, job, containers, proof, reply, [])
    ensures store.Value() == StoreAfter(old(store.Value()), message, |containers|, e)
  {
    ghost var st := store.Value();
    store.SetRunning(message);
    var results: seq<ContainerResult> := [];
    var input := ContainerInput(
      job.source, if |containers| == 1 then job.destination else OffChainLoc, job.data, proof);
    for index := 0 to |containers|
      invariant |results| == index && AllOutputs(results)
      invariant JobRun(ports, job, containers, proof, reply, []) == JobRun(ports, job, containers, proof, reply, results)
      invariant index < |containers| ==> input == InputFor(job, |containers|, results, index, proof)
      invariant store.Value() == TrackAll(Begin(st, message), results)
    {
      var container := containers[index];
      if container !in ports { return PortMissing(results); }
      var answer := reply(index, input);
      var result := ResultOf(container, answer);
      match answer {
        case Json(data) =>
          TrackExtends(Begin(st, message), results, result);
          results := results + [result];
          store.TrackContainerStatus(container, Success);
          input := ContainerInput(
            OffChainLoc, if index == |containers| - 2 then job.destination else OffChainLoc, data, proof);
          if index + 1 < |containers| { NextInput(job, |containers|, results, index, proof); }
        case Broken(text) =>
          BrokenLeaves(st, message, |containers|, results, result);
          results := results + [result];
          store.SetFinished(message, Failed, results);
          store.TrackContainerStatus(container, Failed);
          return Ended(results);
      }
    }
    store.SetFinished(message, Success, results);
    return Ended(results);
  }

  // ------------------------------------------------------------- interleaved jobs: ledger

  datatype Job = Job(containers: seq<string>, message: Option<Message>, results: seq<ContainerResult>)

  /** A finished job, with all its results, and how it ended. */
  datatype Final = Final(job: Job, status: Status)

  /** The store together with every job ever started: suspended at a container call, finished,
      or ended by a missing port; `popped` adds up the counters handed out so far and `used`
      holds every key that is or was in one of the databases. */
  datatype Ledger = Ledger(
    store: Store,
    flying: map<nat, Job>,
    finished: map<nat, Final>,
    lost: map<nat, Job>,
    popped: JobCounters,
    used: set<string>)

  function Opened(completed: map<string, JobResult>): Ledger {
    Ledger(Store(0, JobCounters(ZERO, ZERO), map[], map[], completed), map[], map[], map[],
           JobCounters(ZERO, ZERO), completed.Keys)
  }

  datatype Event =
    | Starts(j: nat, containers: seq<string>, message: Option<Message>)
    | Replies(j: nat, reply: Reply)
    | Pops
    | Expires(key: string)

  predicate Known(l: Ledger, j: nat) { j in l.flying || j in l.finished || j in l.lost }

  predicate May(l: Ledger, e: Event) {
    match e
    case Starts(j, _, message) => !Known(l, j) && (message.Some? ==> FormatKey(message.value) !in l.used)
    case Replies(j, _) => j in l.flying && |l.flying[j].results| < |l.flying[j].containers|
    case Pops => true
    case Expires(_) => true
  }

  /** A job whose results so far are outputs goes on: to its success, to a missing port, or to
      the call of its next container. */
  function Proceed(ports: map<string, int>, l: Ledger, j: nat, job: Job): Ledger {
    if |job.results| >= |job.containers| then Conclude(l, j, job, Success)
    else if job.containers[|job.results|] !in ports then
      l.(flying := l.flying - {j}, lost := l.lost[j := job])
    else l.(flying := l.flying[j := job])
  }

  function Conclude(l: Ledger, j: nat, job: Job, status: Status): Ledger {
    l.(store := Finish(l.store, job.message, status, job.results),
       flying := l.flying - {j},
       finished := l.finished[j := Final(job, status)])
  }

  function After(ports: map<string, int>, l: Ledger, e: Event): Ledger
    requires May(l, e)
  {
    match e
    case Starts(j, containers, message) =>
      var job := Job(containers, message, []);
      Proceed(ports, Launched(l, j, job), j, job)
    case Replies(j, reply) =>
      var job := l.flying[j];
      var container := job.containers[|job.results|];
      var job' := job.(results := job.results + [ResultOf(container, reply)]);
      if reply.Json? then
        Proceed(ports, l.(store := TrackContainer(l.store, container, Success)), j, job')
      else
        Conclude(l.(store := TrackContainer(l.store, container, Failed)), j, job', Failed)
    case Pops => l.(store := PopJobs(l.store), popped := Sum(l.popped, l.store.counters))
    case Expires(key) => l.(store := Expire(l.store, key))
  }

  function Add(a: Tally, b: Tally): Tally { Tally(a.success + b.success, a.failed + b.failed) }

  function Sum(a: JobCounters, b: JobCounters): JobCounters {
    JobCounters(Add(a.offchain, b.offchain), Add(a.onchain, b.onchain))
  }

  predicate History(ports: map<string, int>, l: Ledger, es: seq<Event>)
    decreases |es|
  {
    es == [] || (May(l, es[0]) && History(ports, After(ports, l, es[0]), es[1..]))
  }

  function Outcome(ports: map<string, int>, l: Ledger, es: seq<Event>): Ledger
    requires History(ports, l, es)
    decreases |es|
  {
    if es == [] then l else Outcome(ports, After(ports, l, es[0]), es[1..])
  }

  // ---------------------------------------------------------------------- conservation

  function OnChainJobs(jobs: map<nat, Job>): set<nat> {
    set j | j in jobs && jobs[j].message.None?
  }

  function Endings(finished: map<nat, Final>, onchain: bool, status: Status): set<nat> {
    set j | j in finished && finished[j].job.message.None? == onchain && finished[j].status == status
  }

  /** Every job is in exactly one of the three places, a finished one with a terminal status. */
  ghost predicate PlacesOk(l: Ledger) {
    l.flying.Keys !! l.finished.Keys && l.flying.Keys !! l.lost.Keys && l.finished.Keys !! l.lost.Keys
    && (forall j :: j in l.finished ==> l.finished[j].status != Running)
  }

  ghost predicate PendingOk(l: Ledger) {
    l.store.onchainPending == |OnChainJobs(l.flying)| + |OnChainJobs(l.lost)|
  }

  /** How often jobs of one kind were counted: now and in everything popped before. */
  function Counted(l: Ledger, onchain: bool, status: Status): nat {
    var sum := Sum(l.popped, l.store.counters);
    var tally := if onchain then sum.onchain else sum.offchain;
    if status == Success then tally.success else tally.failed
  }

  ghost predicate TalliesOk(l: Ledger) {
    forall onchain, status :: status != Running ==> Counted(l, onchain, status) == |Endings(l.finished, onchain, status)|
  }

  ghost predicate BooksOk(l: Ledger) { PlacesOk(l) && PendingOk(l) && TalliesOk(l) }

  lemma {:induction false} FlightLess(jobs: map<nat, Job>, j: nat)
    ensures |OnChainJobs(jobs - {j})| == |OnChainJobs(jobs)| - if j in OnChainJobs(jobs) then 1 else 0
  {
    assert OnChainJobs(jobs - {j}) == OnChainJobs(jobs) - {j};
  }

  lemma {:induction false} FlightMore(jobs: map<nat, Job>, j: nat, job: Job)
    ensures |OnChainJobs(jobs[j := job])| == |OnChainJobs(jobs - {j})| + if job.message.None? then 1 else 0
  {
    var a := OnChainJobs(jobs - {j});
    if job.message.None? {
      assert OnChainJobs(jobs[j := job]) == a + {j};
    } else {
      assert OnChainJobs(jobs[j := job]) == a;
    }
  }

  lemma {:induction false} FlightStep(jobs: map<nat, Job>, j: nat, job: Job)
    ensures |OnChainJobs(jobs - {j})| == |OnChainJobs(jobs)| - if j in OnChainJobs(jobs) then 1 else 0
    ensures |OnChainJobs(jobs[j := job])| == |OnChainJobs(jobs - {j})| + if job.message.None? then 1 else 0
  {
    FlightLess(jobs, j);
    FlightMore(jobs, j, job);
  }

  lemma {:induction false} EndingsStep(finished: map<nat, Final>, j: nat, f: Final, onchain: bool, status: Status)
    requires j !in finished
    ensures |Endings(finished[j := f], onchain, status)| ==
      |Endings(finished, onchain, status)| + if f.job.message.None? == onchain && f.status == status then 1 else 0
  {
    var a, b := Endings(finished, onchain, status), Endings(finished[j := f], onchain, status);
    assert j !in a;
    assert forall x :: x != j ==> (x in b <==> x in a);
    if f.job.message.None? == onchain && f.status == status {
      assert b == a + {j};
    } else {
      assert b == a;
    }
  }

  lemma {:induction false} ConcludeCounts(l: Ledger, j: nat, job: Job, status: Status, onchain: bool, s: Status)
    requires status != Running && s != Running && j !in l.finished
    requires Counted(l, onchain, s) == |Endings(l.finished, onchain, s)|
    ensures var l' := Conclude(l, j, job, status); Counted(l', onchain, s) == |Endings(l'.finished, onchain, s)|
  {
    EndingsStep(l.finished, j, Final(job, status), onchain, s);
  }

  lemma {:induction false} ConcludeKeeps(l: Ledger, j: nat, job: Job, status: Status)
    requires BooksOk(l) && status != Running
    requires j in l.flying && l.flying[j].message == job.message
    ensures BooksOk(Conclude(l, j, job, status))
  {
    var l' := Conclude(l, j, job, status);
    FlightStep(l.flying, j, job);
    forall onchain, s | s != Running ensures Counted(l', onchain, s) == |Endings(l'.finished, onchain, s)| {
      ConcludeCounts(l, j, job, status, onchain, s);
    }
  }

  lemma {:induction false} ProceedKeeps(ports: map<string, int>, l: Ledger, j: nat, job: Job)
    requires BooksOk(l) && j in l.flying && l.flying[j].message == job.message
    ensures BooksOk(Proceed(ports, l, j, job))
  {
    var l' := Proceed(ports, l, j, job);
    if |job.results| >= |job.containers| {
      ConcludeKeeps(l, j, job, Success);
    } else {
      FlightStep(l.flying, j, job);
      FlightStep(l.lost, j, job);
      assert l.lost - {j} == l.lost;
      assert TalliesOk(l') by {
        forall onchain, s | s != Running ensures Counted(l', onchain, s) == |Endings(l'.finished, onchain, s)| {
          assert Counted(l, onchain, s) == |Endings(l.finished, onchain, s)|;
        }
      }
    }
  }

  /** What a start or a container's answer changes before the job goes on. */
  lemma {:induction false} SameTallies(l: Ledger, l': Ledger)
    requires TalliesOk(l) && l'.finished == l.finished
    requires Sum(l'.popped, l'.store.counters) == Sum(l.popped, l.store.counters)
    ensures TalliesOk(l')
  {
    forall onchain, s | s != Running ensures Counted(l', onchain, s) == |Endings(l'.finished, onchain, s)| {
      assert Counted(l, onchain, s) == |Endings(l.finished, onchain, s)|;
    }
  }

  function Launched(l: Ledger, j: nat, job: Job): Ledger {
    l.(store := Begin(l.store, job.message),
       flying := l.flying[j := job],
       used := if job.message.Some? then l.used + {FormatKey(job.message.value)} else l.used)
  }

  lemma {:induction false} LaunchKeeps(l: Ledger, j: nat, job: Job)
    requires BooksOk(l) && !Known(l, j)
    ensures BooksOk(Launched(l, j, job))
  {
    FlightStep(l.flying, j, job);
    assert l.flying - {j} == l.flying;
    SameTallies(l, Launched(l, j, job));
  }

  lemma {:induction false} ReplyKeeps(ports: map<string, int>, l: Ledger, j: nat, reply: Reply)
    requires BooksOk(l) && May(l, Replies(j, reply))
    ensures BooksOk(After(ports, l, Replies(j, reply)))
  {
    var job := l.flying[j];
    var container := job.containers[|job.results|];
    var job' := job.(results := job.results + [ResultOf(container, reply)]);
    var l' := l.(store := TrackContainer(l.store, container, if reply.Json? then Success else Failed));
    SameTallies(l, l');
    if reply.Json? {
      ProceedKeeps(ports, l', j, job');
    } else {
      ConcludeKeeps(l', j, job', Failed);
    }
  }

  lemma {:induction false} EventKeeps(ports: map<string, int>, l: Ledger, e: Event)
    requires BooksOk(l) && May(l, e)
    ensures BooksOk(After(ports, l, e))
  {
    match e
    case Starts(j, containers, message) =>
      LaunchKeeps(l, j, Job(containers, message, []));
      ProceedKeeps(ports, Launched(l, j, Job(containers, message, [])), j, Job(containers, message, []));
    case Replies(j, reply) => ReplyKeeps(ports, l, j, reply);
    case Pops => SameTallies(l, After(ports, l, Pops));
    case Expires(key) => SameTallies(l, After(ports, l, Expires(key)));
  }

  lemma {:induction false} HistoryKeeps(ports: map<string, int>, l: Ledger, es: seq<Event>)
    requires BooksOk(l) && History(ports, l, es)
    ensures BooksOk(Outcome(ports, l, es))
    decreases |es|
  {
    if es != [] {
      EventKeeps(ports, l, es[0]);
      HistoryKeeps(ports, After(ports, l, es[0]), es[1..]);
    }
  }

  lemma {:induction false} OpenedBalances(completed: map<string, JobResult>)
    ensures BooksOk(Opened(completed))
  {
    var l0 := Opened(completed);
    assert OnChainJobs(l0.flying) == {} && OnChainJobs(l0.lost) == {};
    assert forall o, s :: Endings(l0.finished, o, s) == {};
  }

  /** The on-chain jobs ever started. */
  function StartedOnChain(l: Ledger): set<nat> {
    OnChainJobs(l.flying) + OnChainJobs(l.lost) + Endings(l.finished, true, Success) + Endings(l.finished, true, Failed)
  }

  lemma {:induction false} FourParts(a: set<nat>, b: set<nat>, c: set<nat>, d: set<nat>)
    requires a !! b && (a + b) !! c && (a + b + c) !! d
    ensures |a + b + c + d| == |a| + |b| + |c| + |d|
  {
    assert |a + b| == |a| + |b|;
    assert |a + b + c| == |a + b| + |c|;
  }

  /** In every interleaving of jobs, counter pops and expiries the books balance: the pending
      counter is the number of on-chain jobs in flight or ended by a missing port, and the
      on-chain jobs ever started are those plus all successes and failures, current or already
      handed out. */
  lemma {:induction false} OnChainBooksBalance(
    ports: map<string, int>, completed: map<string, JobResult>, es: seq<Event>, l: Ledger)
    requires History(ports, Opened(completed), es) && l == Outcome(ports, Opened(completed), es)
    ensures l.store.onchainPending == |OnChainJobs(l.flying)| + |OnChainJobs(l.lost)|
    ensures |StartedOnChain(l)| == l.store.onchainPending
      + l.store.counters.onchain.success + l.store.counters.onchain.failed
      + l.popped.onchain.success + l.popped.onchain.failed
  {
    OpenedBalances(completed);
    HistoryKeeps(ports, Opened(completed), es);
    BooksAddUp(l);
  }

  lemma {:induction false} PlacesAreDisjoint(l: Ledger)
    requires PlacesOk(l)
    ensures var a, b := OnChainJobs(l.flying), OnChainJobs(l.lost);
      var c, d := Endings(l.finished, true, Success), Endings(l.finished, true, Failed);
      a !! b && (a + b) !! c && (a + b + c) !! d
  {
  }

  lemma {:induction false} BooksAddUp(l: Ledger)
    requires BooksOk(l)
    ensures |StartedOnChain(l)| == l.store.onchainPending
      + l.store.counters.onchain.success + l.store.counters.onchain.failed
      + l.popped.onchain.success + l.popped.onchain.failed
  {
    PlacesAreDisjoint(l);
    FourParts(OnChainJobs(l.flying), OnChainJobs(l.lost), Endings(l.finished, true, Success), Endings(l.finished, true, Failed));
    assert Counted(l, true, Success) == |Endings(l.finished, true, Success)|;
    assert Counted(l, true, Failed) == |Endings(l.finished, true, Failed)|;
  }

  /** Every container of every on-chain job the events start has a port. */
  ghost predicate OnChainPorts(ports: map<string, int>, es: seq<Event>) {
    forall i :: 0 <= i < |es| && es[i].Starts? && es[i].message.None? ==> HasPorts(ports, es[i].containers)
  }

  predicate HasPorts(ports: map<string, int>, containers: seq<string>) {
    forall k :: 0 <= k < |containers| ==> containers[k] in ports
  }

  ghost predicate FlyingPorts(ports: map<string, int>, l: Ledger) {
    (forall j :: j in l.lost ==> l.lost[j].message.Some?)
    && forall j :: j in l.flying && l.flying[j].message.None? ==> HasPorts(ports, l.flying[j].containers)
  }

  lemma {:induction false} ProceedKeepsPorts(ports: map<string, int>, l: Ledger, j: nat, job: Job)
    requires FlyingPorts(ports, l) && (job.message.None? ==> HasPorts(ports, job.containers))
    ensures FlyingPorts(ports, Proceed(ports, l, j, job))
  {
  }

  lemma {:induction false} EventKeepsPorts(ports: map<string, int>, l: Ledger, e: Event)
    requires FlyingPorts(ports, l) && May(l, e)
    requires e.Starts? && e.message.None? ==> HasPorts(ports, e.containers)
    ensures FlyingPorts(ports, After(ports, l, e))
  {
    match e
    case Starts(j, containers, message) =>
      var job := Job(containers, message, []);
      ProceedKeepsPorts(ports, Launched(l, j, job), j, job);
    case Replies(j, reply) =>
      var job := l.flying[j];
      var container := job.containers[|job.results|];
      ProceedKeepsPorts(ports, l.(store := TrackContainer(l.store, container, Success)), j,
                        job.(results := job.results + [ResultOf(container, reply)]));
    case _ =>
  }

  lemma {:induction false} PortsKeepJobs(ports: map<string, int>, l: Ledger, es: seq<Event>)
    requires FlyingPorts(ports, l) && History(ports, l, es) && OnChainPorts(ports, es)
    ensures FlyingPorts(ports, Outcome(ports, l, es))
    decreases |es|
  {
    if es != [] {
      assert forall i :: 0 <= i < |es[1..]| ==> es[1..][i] == es[i + 1];
      assert es[0].Starts? && es[0].message.None? ==> HasPorts(ports, es[0].containers);
      EventKeepsPorts(ports, l, es[0]);
      PortsKeepJobs(ports, After(ports, l, es[0]), es[1..]);
    }
  }

  /** With a port for every container of every on-chain job, none of them is lost: the pending
      counter is exactly the number of on-chain jobs in flight, whatever off-chain jobs name. */
  lemma {:induction false} PendingIsInFlight(
    ports: map<string, int>, completed: map<string, JobResult>, es: seq<Event>, l: Ledger)
    requires History(ports, Opened(completed), es) && l == Outcome(ports, Opened(completed), es)
    requires OnChainPorts(ports, es)
    ensures l.store.onchainPending == |OnChainJobs(l.flying)| >= 0
  {
    OnChainBooksBalance(ports, completed, es, l);
    PortsKeepJobs(ports, Opened(completed), es);
    assert OnChainJobs(l.lost) == {};
  }

  /** A job reaches one terminal status and keeps it: it leaves its flight for good, and no
      later event gives it another one. */
  lemma {:induction false} TerminalIsFinal(ports: map<string, int>, l: Ledger, es: seq<Event>, j: nat)
    requires BooksOk(l) && History(ports, l, es) && j in l.finished
    ensures var l' := Outcome(ports, l, es);
      j in l'.finished && l'.finished[j] == l.finished[j] && j !in l'.flying && j !in l'.lost
      && l'.finished[j].status != Running
    decreases |es|
  {
    if es != [] {
      EventKeeps(ports, l, es[0]);
      TerminalIsFinal(ports, After(ports, l, es[0]), es[1..], j);
    }
  }

  // ------------------------------------------------------------------ off-chain databases

  /** The key of an off-chain job that has started. */
  function KeyOf(l: Ledger, j: nat): Option<string>
    requires Known(l, j)
  {
    var message := if j in l.flying then l.flying[j].message
                   else if j in l.finished then l.finished[j].job.message else l.lost[j].message;
    if message.Some? then Some(FormatKey(message.value)) else None
  }

  /** Every key in use belongs to one job. */
  ghost predicate KeysOk(l: Ledger) {
    (forall j :: Known(l, j) && KeyOf(l, j).Some? ==> KeyOf(l, j).value in l.used)
    && (forall i, j :: Known(l, i) && Known(l, j) && i != j && KeyOf(l, i).Some? ==> KeyOf(l, i) != KeyOf(l, j))
  }

  ghost predicate AnswerStored(entry: JobResult, f: Final) {
    f.job.message.Some? ==> HoldsAnswer(entry, f.job.message.value, f.status, f.job.results)
  }

  ghost predicate RunningStored(st: Store, m: Message) {
    FormatKey(m) in st.pending ==> HoldsAnswer(st.pending[FormatKey(m)], m, Running, [])
  }

  /** The answer of a finished job is in the completed database and nowhere else; a pending entry
      belongs to a job that has not finished. */
  ghost predicate ResultsOk(l: Ledger) {
    l.store.pending.Keys <= l.used && l.store.completed.Keys <= l.used
    && (forall j :: (j in l.flying || j in l.lost) && KeyOf(l, j).Some? ==> KeyOf(l, j).value !in l.store.completed)
    && (forall j :: j in l.finished && KeyOf(l, j).Some? ==>
          KeyOf(l, j).value !in l.store.pending && KeyOf(l, j).value in l.store.completed
          && AnswerStored(l.store.completed[KeyOf(l, j).value], l.finished[j]))
    && (forall key :: key in l.store.pending ==> key !in l.store.completed)
  }

  /** A job that has not finished is stored as running. */
  ghost predicate RunningOk(l: Ledger) {
    (forall j :: j in l.flying && l.flying[j].message.Some? ==> RunningStored(l.store, l.flying[j].message.value))
    && (forall j :: j in l.lost && l.lost[j].message.Some? ==> RunningStored(l.store, l.lost[j].message.value))
  }

  ghost predicate DatabasesOk(l: Ledger) { KeysOk(l) && ResultsOk(l) && RunningOk(l) }

  /** A job that only changes its place keeps its key. */
  lemma {:induction false} SamePlaces(l: Ledger, l': Ledger)
    requires KeysOk(l) && l'.used == l.used
    requires forall i :: Known(l', i) <==> Known(l, i)
    requires forall i :: Known(l, i) ==> KeyOf(l', i) == KeyOf(l, i)
    ensures KeysOk(l')
  {
  }

  lemma {:induction false} ConcludeKeepsKeys(l: Ledger, j: nat, job: Job, status: Status)
    requires PlacesOk(l) && KeysOk(l) && j in l.flying && l.flying[j].message == job.message
    ensures var l' := Conclude(l, j, job, status);
      KeysOk(l') && forall i :: Known(l, i) ==> Known(l', i) && KeyOf(l', i) == KeyOf(l, i)
  {
    var l' := Conclude(l, j, job, status);
    assert forall i :: Known(l', i) <==> Known(l, i);
    assert forall i :: Known(l, i) ==> KeyOf(l', i) == KeyOf(l, i);
    SamePlaces(l, l');
  }

  /** No job starts, and pending entries stay as they are or go. */
  lemma {:induction false} SameRunning(l: Ledger, l': Ledger)
    requires RunningOk(l)
    requires forall m :: FormatKey(m) in l'.store.pending ==>
      FormatKey(m) in l.store.pending && l'.store.pending[FormatKey(m)] == l.store.pending[FormatKey(m)]
    requires forall j :: j in l'.flying && l'.flying[j].message.Some? ==> j in l.flying && l.flying[j].message == l'.flying[j].message
    requires forall j :: j in l'.lost && l'.lost[j].message.Some? ==>
      (j in l.lost && l.lost[j].message == l'.lost[j].message) || (j in l.flying && l.flying[j].message == l'.lost[j].message)
    ensures RunningOk(l')
  {
    forall m | RunningStored(l.store, m) ensures RunningStored(l'.store, m) {}
  }

  lemma {:induction false} ConcludeKeepsDatabases(l: Ledger, j: nat, job: Job, status: Status)
    requires PlacesOk(l) && DatabasesOk(l) && j in l.flying && l.flying[j].message == job.message
    ensures DatabasesOk(Conclude(l, j, job, status))
  {
    ConcludeKeepsKeys(l, j, job, status);
    ConcludeKeepsResults(l, j, job, status);
    SameRunning(l, Conclude(l, j, job, status));
  }

  lemma {:induction false} ConcludeKeepsResults(l: Ledger, j: nat, job: Job, status: Status)
    requires PlacesOk(l) && KeysOk(l) && ResultsOk(l) && j in l.flying && l.flying[j].message == job.message
    ensures ResultsOk(Conclude(l, j, job, status))
  {
    ConcludeKeepsKeys(l, j, job, status);
    assert KeyOf(l, j) == if job.message.Some? then Some(FormatKey(job.message.value)) else None;
  }

  /** The job stays in flight, or is lost: the databases do not change. */
  lemma {:induction false} StayKeepsKeys(ports: map<string, int>, l: Ledger, j: nat, job: Job)
    requires PlacesOk(l) && KeysOk(l) && j in l.flying && l.flying[j].message == job.message
    requires |job.results| < |job.containers|
    ensures var l' := Proceed(ports, l, j, job);
      KeysOk(l') && forall i :: Known(l, i) ==> Known(l', i) && KeyOf(l', i) == KeyOf(l, i)
  {
    var l' := Proceed(ports, l, j, job);
    assert forall i :: Known(l', i) <==> Known(l, i);
    assert forall i :: Known(l, i) ==> KeyOf(l', i) == KeyOf(l, i);
    SamePlaces(l, l');
  }

  lemma {:induction false} StayKeepsResults(ports: map<string, int>, l: Ledger, j: nat, job: Job)
    requires PlacesOk(l) && KeysOk(l) && ResultsOk(l) && j in l.flying && l.flying[j].message == job.message
    requires |job.results| < |job.containers|
    ensures ResultsOk(Proceed(ports, l, j, job))
  {
    var l' := Proceed(ports, l, j, job);
    StayKeepsKeys(ports, l, j, job);
    assert l'.store == l.store && l'.finished == l.finished && l'.used == l.used;
    forall i | (i in l'.flying || i in l'.lost) && KeyOf(l', i).Some? ensures KeyOf(l', i).value !in l'.store.completed {
      assert i in l.flying || i in l.lost;
    }
  }

  lemma {:induction false} ProceedKeepsDatabases(ports: map<string, int>, l: Ledger, j: nat, job: Job)
    requires PlacesOk(l) && DatabasesOk(l) && j in l.flying && l.flying[j].message == job.message
    ensures DatabasesOk(Proceed(ports, l, j, job))
  {
    if |job.results| >= |job.containers| {
      ConcludeKeepsDatabases(l, j, job, Success);
    } else {
      StayKeepsKeys(ports, l, j, job);
      StayKeepsResults(ports, l, j, job);
      SameRunning(l, Proceed(ports, l, j, job));
    }
  }

  lemma {:induction false} LaunchKeepsDatabases(l: Ledger, j: nat, job: Job)
    requires PlacesOk(l) && DatabasesOk(l) && !Known(l, j)
    requires job.message.Some? ==> FormatKey(job.message.value) !in l.used
    ensures DatabasesOk(Launched(l, j, job))
  {
    LaunchKeepsKeys(l, j, job);
    LaunchKeepsResults(l, j, job);
    LaunchKeepsRunning(l, j, job);
  }

  lemma {:induction false} LaunchKeepsKeys(l: Ledger, j: nat, job: Job)
    requires KeysOk(l) && !Known(l, j)
    requires job.message.Some? ==> FormatKey(job.message.value) !in l.used
    ensures var l' := Launched(l, j, job);
      KeysOk(l') && forall i :: Known(l, i) ==> Known(l', i) && KeyOf(l', i) == KeyOf(l, i)
  {
    var l' := Launched(l, j, job);
    assert forall i :: Known(l', i) <==> Known(l, i) || i == j;
    assert forall i :: Known(l, i) ==> KeyOf(l', i) == KeyOf(l, i);
  }

  lemma {:induction false} LaunchKeepsResults(l: Ledger, j: nat, job: Job)
    requires PlacesOk(l) && KeysOk(l) && ResultsOk(l) && !Known(l, j)
    requires job.message.Some? ==> FormatKey(job.message.value) !in l.used
    ensures ResultsOk(Launched(l, j, job))
  {
    LaunchKeepsKeys(l, j, job);
  }

  /** The key of the new job is fresh, so its entry replaces none. */
  lemma {:induction false} LaunchKeepsRunning(l: Ledger, j: nat, job: Job)
    requires PlacesOk(l) && KeysOk(l) && RunningOk(l) && !Known(l, j)
    requires job.message.Some? ==> FormatKey(job.message.value) !in l.used
    ensures RunningOk(Launched(l, j, job))
  {
    var l' := Launched(l, j, job);
    forall m: Message | FormatKey(m) in l.used && RunningStored(l.store, m) ensures RunningStored(l'.store, m) {}
    forall i | i in l'.flying && l'.flying[i].message.Some? ensures RunningStored(l'.store, l'.flying[i].message.value) {
      if i != j { assert Known(l, i) && KeyOf(l, i) == Some(FormatKey(l.flying[i].message.value)); }
    }
    forall i | i in l'.lost && l'.lost[i].message.Some? ensures RunningStored(l'.store, l'.lost[i].message.value) {
      assert Known(l, i) && i !in l.flying && i !in l.finished;
    }
  }

  lemma {:induction false} ReplyKeepsDatabases(ports: map<string, int>, l: Ledger, j: nat, reply: Reply)
    requires BooksOk(l) && DatabasesOk(l) && May(l, Replies(j, reply))
    ensures DatabasesOk(After(ports, l, Replies(j, reply)))
  {
    var job := l.flying[j];
    var container := job.containers[|job.results|];
    var job' := job.(results := job.results + [ResultOf(container, reply)]);
    var l' := l.(store := TrackContainer(l.store, container, if reply.Json? then Success else Failed));
    SameDatabases(l, l');
    if reply.Json? { ProceedKeepsDatabases(ports, l', j, job'); } else { ConcludeKeepsDatabases(l', j, job', Failed); }
  }

  /** Only counters change, or pending entries go. */
  lemma {:induction false} SameDatabases(l: Ledger, l': Ledger)
    requires DatabasesOk(l)
    requires l' == l.(store := l'.store, popped := l'.popped)
    requires l'.store.completed == l.store.completed
    requires forall key :: key in l'.store.pending ==> key in l.store.pending && l'.store.pending[key] == l.store.pending[key]
    ensures DatabasesOk(l')
  {
    assert forall i :: Known(l, i) ==> KeyOf(l', i) == KeyOf(l, i);
    SamePlaces(l, l');
    SameResults(l, l');
    SameRunning(l, l');
  }

  lemma {:induction false} SameResults(l: Ledger, l': Ledger)
    requires ResultsOk(l)
    requires l'.flying == l.flying && l'.finished == l.finished && l'.lost == l.lost && l'.used == l.used
    requires l'.store.completed == l.store.completed && l'.store.pending.Keys <= l.store.pending.Keys
    ensures ResultsOk(l')
  {
    assert forall i :: Known(l, i) ==> KeyOf(l', i) == KeyOf(l, i);
  }

  lemma {:induction false} EventKeepsDatabases(ports: map<string, int>, l: Ledger, e: Event)
    requires BooksOk(l) && DatabasesOk(l) && May(l, e)
    ensures DatabasesOk(After(ports, l, e))
  {
    match e
    case Starts(j, containers, message) =>
      var job := Job(containers, message, []);
      LaunchKeepsDatabases(l, j, job);
      LaunchKeeps(l, j, job);
      ProceedKeepsDatabases(ports, Launched(l, j, job), j, job);
    case Replies(j, reply) => ReplyKeepsDatabases(ports, l, j, reply);
    case Pops => SameDatabases(l, After(ports, l, Pops));
    case Expires(key) => SameDatabases(l, After(ports, l, Expires(key)));
  }

  /** Between store operations no key is in both databases, and a finished off-chain job is
      found in the completed one alone, with the status it ended with; whatever was
      interleaved, and whether or not its pending entry had expired. */
  lemma {:induction false} KeyInOneDatabase(
    ports: map<string, int>, completed: map<string, JobResult>, es: seq<Event>, l: Ledger)
    requires History(ports, Opened(completed), es) && l == Outcome(ports, Opened(completed), es)
    ensures l.store.pending.Keys !! l.store.completed.Keys
    ensures forall j :: j in l.finished && l.finished[j].job.message.Some? ==>
      var key := FormatKey(l.finished[j].job.message.value);
      key !in l.store.pending && key in l.store.completed
      && HoldsAnswer(l.store.completed[key], l.finished[j].job.message.value, l.finished[j].status, l.finished[j].job.results)
  {
    OpenedBalances(completed);
    DatabasesAlong(ports, Opened(completed), es);
    forall j | j in l.finished && l.finished[j].job.message.Some?
      ensures KeyOf(l, j) == Some(FormatKey(l.finished[j].job.message.value)) {}
  }

  lemma {:induction false} DatabasesAlong(ports: map<string, int>, l: Ledger, es: seq<Event>)
    requires BooksOk(l) && DatabasesOk(l) && History(ports, l, es)
    ensures BooksOk(Outcome(ports, l, es)) && DatabasesOk(Outcome(ports, l, es))
    decreases |es|
  {
    if es != [] {
      EventKeeps(ports, l, es[0]);
      EventKeepsDatabases(ports, l, es[0]);
      DatabasesAlong(ports, After(ports, l, es[0]), es[1..]);
    }
  }

  // ------------------------------------------------------------------------- the listings

  /** The messages of the off-chain jobs that have finished, and of those that have not. */
  function Done(l: Ledger): set<Message> {
    set j | j in l.finished && l.finished[j].job.message.Some? :: l.finished[j].job.message.value
  }

  function Unfinished(l: Ledger): set<Message> {
    (set j | j in l.flying && l.flying[j].message.Some? :: l.flying[j].message.value)
    + (set j | j in l.lost && l.lost[j].message.Some? :: l.lost[j].message.value)
  }

  /** The completed database is keyed by the finished jobs and those from before the start, the
      pending one by unfinished jobs, by all of them unless an entry has expired. */
  ghost predicate Keyed(l: Ledger, earlier: set<Message>, unexpired: bool) {
    KeyedBy(l.store.completed, earlier + Done(l))
    && (forall key :: key in l.store.pending ==> exists m :: m in Unfinished(l) && key == FormatKey(m))
    && (unexpired ==> forall m :: m in Unfinished(l) ==> FormatKey(m) in l.store.pending)
  }

  lemma {:induction false} UnfinishedJob(l: Ledger, m: Message) returns (j: nat)
    requires m in Unfinished(l)
    ensures (j in l.flying && l.flying[j].message == Some(m)) || (j in l.lost && l.lost[j].message == Some(m))
  {
    if i :| i in l.flying && l.flying[i].message == Some(m) { j := i; } else {
      j :| j in l.lost && l.lost[j].message == Some(m);
    }
  }

  /** What concluding a job does to the two sets of messages. */
  lemma {:induction false} ConcludeMessages(l: Ledger, j: nat, job: Job, status: Status)
    requires PlacesOk(l) && KeysOk(l) && j in l.flying && l.flying[j].message == job.message
    ensures var l' := Conclude(l, j, job, status);
      var own := if job.message.Some? then {job.message.value} else {};
      Done(l') == Done(l) + own && Unfinished(l') == Unfinished(l) - own
    ensures forall m :: m in Unfinished(l) && job.message.Some? && FormatKey(m) == FormatKey(job.message.value) ==> m == job.message.value
  {
    var l' := Conclude(l, j, job, status);
    var own := if job.message.Some? then {job.message.value} else {};
    forall m ensures m in Done(l') <==> m in Done(l) + own {
      if m in Done(l) { var i :| i in l.finished && l.finished[i].job.message == Some(m); assert l'.finished[i] == l.finished[i]; }
      if m in own { assert l'.finished[j].job.message == Some(m); }
    }
    forall m | m in Unfinished(l) && job.message.Some? && FormatKey(m) == FormatKey(job.message.value) ensures m == job.message.value {
      var i := UnfinishedJob(l, m);
      assert i != j ==> KeyOf(l, i) != KeyOf(l, j);
    }
    forall m ensures m in Unfinished(l') <==> m in Unfinished(l) - own {
      if m in Unfinished(l) - own {
        var i := UnfinishedJob(l, m);
        assert i != j;
        assert i in l'.flying || i in l'.lost;
      }
      if m in Unfinished(l') {
        var i := UnfinishedJob(l', m);
        assert i != j && (job.message.Some? ==> KeyOf(l, i) != KeyOf(l, j));
      }
    }
  }

  lemma {:induction false} ConcludeKeyed(l: Ledger, j: nat, job: Job, status: Status, earlier: set<Message>, unexpired: bool)
    requires PlacesOk(l) && KeysOk(l) && Keyed(l, earlier, unexpired)
    requires j in l.flying && l.flying[j].message == job.message
    ensures Keyed(Conclude(l, j, job, status), earlier, unexpired)
  {
    ConcludeMessages(l, j, job, status);
    var l' := Conclude(l, j, job, status);
    forall key ensures key in l'.store.completed <==> exists m :: m in earlier + Done(l') && key == FormatKey(m) {
      if m :| m in earlier + Done(l) && key == FormatKey(m) { assert m in earlier + Done(l'); }
      if job.message.Some? && key == FormatKey(job.message.value) { assert job.message.value in earlier + Done(l'); }
    }
    forall key | key in l'.store.pending ensures exists m :: m in Unfinished(l') && key == FormatKey(m) {
      var m :| m in Unfinished(l) && key == FormatKey(m);
      assert m in Unfinished(l');
    }
  }

  /** The job stays where it was, or moves from flight to loss: the messages are the same. */
  lemma {:induction false} StayKeyed(ports: map<string, int>, l: Ledger, j: nat, job: Job, earlier: set<Message>, unexpired: bool)
    requires PlacesOk(l) && Keyed(l, earlier, unexpired) && j in l.flying && l.flying[j].message == job.message
    requires |job.results| < |job.containers|
    ensures Keyed(Proceed(ports, l, j, job), earlier, unexpired)
  {
    var l' := Proceed(ports, l, j, job);
    forall m ensures m in Unfinished(l') <==> m in Unfinished(l) {
      if m in Unfinished(l) {
        var i := UnfinishedJob(l, m);
        assert i == j ==> (j in l'.flying && l'.flying[j].message == Some(m)) || (j in l'.lost && l'.lost[j].message == Some(m));
        assert i != j ==> (i in l.flying ==> l'.flying[i] == l.flying[i]) && (i in l.lost ==> l'.lost[i] == l.lost[i]);
      }
      if m in Unfinished(l') {
        var i := UnfinishedJob(l', m);
        assert i == j ==> l.flying[j].message == Some(m);
      }
    }
    assert Unfinished(l') == Unfinished(l) && Done(l') == Done(l) && l'.store == l.store;
  }

  lemma {:induction false} ProceedKeyed(ports: map<string, int>, l: Ledger, j: nat, job: Job, earlier: set<Message>, unexpired: bool)
    requires PlacesOk(l) && KeysOk(l) && Keyed(l, earlier, unexpired) && j in l.flying && l.flying[j].message == job.message
    ensures Keyed(Proceed(ports, l, j, job), earlier, unexpired)
  {
    if |job.results| >= |job.containers| {
      ConcludeKeyed(l, j, job, Success, earlier, unexpired);
    } else {
      StayKeyed(ports, l, j, job, earlier, unexpired);
    }
  }

  lemma {:induction false} LaunchKeyed(l: Ledger, j: nat, job: Job, earlier: set<Message>, unexpired: bool)
    requires Keyed(l, earlier, unexpired) && !Known(l, j)
    ensures Keyed(Launched(l, j, job), earlier, unexpired)
  {
    var l' := Launched(l, j, job);
    var own := if job.message.Some? then {job.message.value} else {};
    forall m ensures m in Unfinished(l') <==> m in Unfinished(l) + own {
      if m in Unfinished(l) {
        var i := UnfinishedJob(l, m);
        assert i != j && (i in l.flying ==> l'.flying[i] == l.flying[i]);
      }
      if m in own { assert l'.flying[j].message == Some(m); }
    }
    assert Unfinished(l') == Unfinished(l) + own && Done(l') == Done(l);
    forall key | key in l'.store.pending ensures exists m :: m in Unfinished(l') && key == FormatKey(m) {
      if key in l.store.pending {
        var m :| m in Unfinished(l) && key == FormatKey(m);
        assert m in Unfinished(l');
      } else {
        assert job.message.value in Unfinished(l');
      }
    }
  }

  lemma {:induction false} ReplyKeyed(ports: map<string, int>, l: Ledger, j: nat, reply: Reply, earlier: set<Message>, unexpired: bool)
    requires BooksOk(l) && KeysOk(l) && Keyed(l, earlier, unexpired) && May(l, Replies(j, reply))
    ensures Keyed(After(ports, l, Replies(j, reply)), earlier, unexpired)
  {
    var job := l.flying[j];
    var container := job.containers[|job.results|];
    var job' := job.(results := job.results + [ResultOf(container, reply)]);
    var l' := l.(store := TrackContainer(l.store, container, if reply.Json? then Success else Failed));
    assert forall i :: Known(l', i) <==> Known(l, i);
    SamePlaces(l, l');
    assert Done(l') == Done(l) && Unfinished(l') == Unfinished(l);
    if reply.Json? {
      ProceedKeyed(ports, l', j, job', earlier, unexpired);
    } else {
      ConcludeKeyed(l', j, job', Failed, earlier, unexpired);
    }
  }

  lemma {:induction false} EventKeyed(ports: map<string, int>, l: Ledger, e: Event, earlier: set<Message>, unexpired: bool)
    requires BooksOk(l) && DatabasesOk(l) && Keyed(l, earlier, unexpired) && May(l, e) && (unexpired ==> !e.Expires?)
    ensures Keyed(After(ports, l, e), earlier, unexpired)
  {
    match e
    case Starts(j, containers, message) =>
      var job := Job(containers, message, []);
      LaunchKeyed(l, j, job, earlier, unexpired);
      LaunchKeeps(l, j, job);
      LaunchKeepsDatabases(l, j, job);
      ProceedKeyed(ports, Launched(l, j, job), j, job, earlier, unexpired);
    case Replies(j, reply) => ReplyKeyed(ports, l, j, reply, earlier, unexpired);
    case Pops =>
      var l' := After(ports, l, Pops);
      assert Done(l') == Done(l) && Unfinished(l') == Unfinished(l);
    case Expires(key) =>
      var l' := After(ports, l, Expires(key));
      assert Done(l') == Done(l) && Unfinished(l') == Unfinished(l);
  }

  lemma {:induction false} KeyedAlong(ports: map<string, int>, l: Ledger, es: seq<Event>, earlier: set<Message>, unexpired: bool)
    requires BooksOk(l) && DatabasesOk(l) && Keyed(l, earlier, unexpired) && History(ports, l, es)
    requires unexpired ==> forall i :: 0 <= i < |es| ==> !es[i].Expires?
    ensures Keyed(Outcome(ports, l, es), earlier, unexpired)
    decreases |es|
  {
    if es != [] {
      assert forall i :: 0 <= i < |es[1..]| ==> es[1..][i] == es[i + 1];
      EventKeyed(ports, l, es[0], earlier, unexpired);
      EventKeeps(ports, l, es[0]);
      EventKeepsDatabases(ports, l, es[0]);
      KeyedAlong(ports, After(ports, l, es[0]), es[1..], earlier, unexpired);
    }
  }

  ghost predicate ColonFree(messages: set<Message>) {
    forall m :: m in messages ==> Free(m.ip, ':') && Free(m.id, ':')
  }

  /** In every interleaving, the listing of completed jobs for an address is exactly the ids of
      the jobs from that address that have finished, now or before the start, and the listing of
      pending jobs exactly those that have not, when no entry has expired. */
  lemma {:induction false} ListingOfJobs(
    ports: map<string, int>, completed: map<string, JobResult>, earlier: set<Message>, es: seq<Event>, l: Ledger, address: string)
    requires History(ports, Opened(completed), es) && l == Outcome(ports, Opened(completed), es)
    requires KeyedBy(completed, earlier) && Free(address, ':') && ColonFree(earlier + Done(l) + Unfinished(l))
    ensures Listing(l.store.completed, address) == IdsFrom(earlier + Done(l), address)
    ensures Listing(l.store.pending, address) <= IdsFrom(Unfinished(l), address)
    ensures (forall i :: 0 <= i < |es| ==> !es[i].Expires?) ==>
      Listing(l.store.pending, address) == IdsFrom(Unfinished(l), address)
  {
    var unexpired := forall i :: 0 <= i < |es| ==> !es[i].Expires?;
    OpenedBalances(completed);
    assert Done(Opened(completed)) == {} && earlier + {} == earlier;
    KeyedAlong(ports, Opened(completed), es, earlier, unexpired);
    ListingExact(l.store.completed, earlier + Done(l), address);
    PendingListing(l, earlier, unexpired, address);
  }

  lemma {:induction false} PendingListing(l: Ledger, earlier: set<Message>, unexpired: bool, address: string)
    requires Keyed(l, earlier, unexpired) && Free(address, ':') && ColonFree(Unfinished(l))
    ensures Listing(l.store.pending, address) <= IdsFrom(Unfinished(l), address)
    ensures unexpired ==> Listing(l.store.pending, address) == IdsFrom(Unfinished(l), address)
  {
    var present := set m | m in Unfinished(l) && FormatKey(m) in l.store.pending;
    forall key ensures key in l.store.pending <==> exists m :: m in present && key == FormatKey(m) {
      if key in l.store.pending {
        var m :| m in Unfinished(l) && key == FormatKey(m);
        assert m in present;
      }
    }
    ListingExact(l.store.pending, present, address);
    assert unexpired ==> present == Unfinished(l);
  }

  // ------------------------------------------------------------------- one job alone

  function RepliesOf(replies: seq<Reply>): seq<Event> {
    if replies == [] then [] else [Replies(0, replies[0])] + RepliesOf(replies[1..])
  }

  /** The events of a job that runs alone. */
  function OneJob(containers: seq<string>, message: Option<Message>, replies: seq<Reply>): seq<Event> {
    [Starts(0, containers, message)] + RepliesOf(replies)
  }

  /** How a run of the job can end with these replies, as `RunJob` ensures it. */
  ghost predicate EndsWith(ports: map<string, int>, containers: seq<string>, replies: seq<Reply>, e: Ending) {
    |e.results| == |replies| <= |containers|
    && (forall k :: 0 <= k < |replies| ==> e.results[k] == ResultOf(containers[k], replies[k]) && containers[k] in ports)
    && (forall k :: 0 <= k < |replies| - 1 ==> e.results[k].Output?)
    && (e.PortMissing? <==>
          AllOutputs(e.results) && |e.results| < |containers| && containers[|e.results|] !in ports)
    && (e.Ended? ==>
          (|e.results| == |containers| && AllOutputs(e.results))
          || (e.results != [] && e.results[|e.results| - 1].Error?))
  }

  /** The replies that `RunJob` has seen when it ends with these results. */
  function SeenReplies(
    job: JobInput, containers: seq<string>, proof: bool, reply: (nat, ContainerInput) -> Reply, results: seq<ContainerResult>): (r: seq<Reply>)
    requires IsChain(job, containers, proof, reply, results)
  {
    seq(|results|, k requires 0 <= k < |results| => reply(k, InputFor(job, |containers|, results, k, proof)))
  }

  /** `JobRun`, which `RunJob` computes, ends so. */
  lemma {:induction false} RunnerEndsWith(
    ports: map<string, int>, job: JobInput, containers: seq<string>, proof: bool, reply: (nat, ContainerInput) -> Reply, e: Ending)
    requires ChainEnds(ports, job, containers, proof, reply, e)
    ensures EndsWith(ports, containers, SeenReplies(job, containers, proof, reply, e.results), e)
  {
    forall k | 0 <= k < |e.results|
      ensures e.results[k] == ResultOf(containers[k], SeenReplies(job, containers, proof, reply, e.results)[k]) {
      assert AnswersAt(job, containers, proof, reply, e.results, k);
    }
  }

  /** The ledger while the job waits for its answer k. */
  ghost predicate AtCall(
    l: Ledger, st: Store, containers: seq<string>, message: Option<Message>, results: seq<ContainerResult>, k: nat)
  {
    k < |results| <= |containers| && l.flying == map[0 := Job(containers, message, results[..k])]
    && l.store == TrackAll(Begin(st, message), results[..k])
  }

  /** After k outputs the job goes on to what comes next: an end, or the call of container k. */
  lemma {:induction false} GoesOn(
    ports: map<string, int>, l: Ledger, st: Store, containers: seq<string>, message: Option<Message>,
    replies: seq<Reply>, k: nat, e: Ending)
    requires EndsWith(ports, containers, replies, e) && k <= |replies| && AllOutputs(e.results[..k])
    requires 0 in l.flying && l.flying.Keys == {0}
    requires l.store == TrackAll(Begin(st, message), e.results[..k])
    ensures var l' := Proceed(ports, l, 0, Job(containers, message, e.results[..k]));
      if k < |replies| then AtCall(l', st, containers, message, e.results, k)
      else l'.store == StoreAfter(st, message, |containers|, e)
  {
    var job := Job(containers, message, e.results[..k]);
    if k < |replies| {
      assert containers[k] in ports;
      assert l.flying[0 := job] == map[0 := job];
    } else {
      assert e.results[..k] == e.results;
    }
  }

  lemma {:induction false} RepliesAgree(
    ports: map<string, int>, l: Ledger, st: Store, containers: seq<string>, message: Option<Message>,
    replies: seq<Reply>, k: nat, e: Ending)
    requires EndsWith(ports, containers, replies, e) && AtCall(l, st, containers, message, e.results, k)
    ensures History(ports, l, RepliesOf(replies[k..]))
    ensures Outcome(ports, l, RepliesOf(replies[k..])).store == StoreAfter(st, message, |containers|, e)
    decreases |replies| - k
  {
    assert RepliesOf(replies[k..]) == [Replies(0, replies[k])] + RepliesOf(replies[k + 1..]) by {
      assert replies[k..][1..] == replies[k + 1..];
    }
    var l1 := After(ports, l, Replies(0, replies[k]));
    ReplyAgrees(ports, l, st, containers, message, replies, k, e);
    if k + 1 < |replies| {
      RepliesAgree(ports, l1, st, containers, message, replies, k + 1, e);
    } else {
      assert RepliesOf(replies[k + 1..]) == [];
    }
  }

  /** One answer: the ledger waits for the next, or has the store the runner leaves. */
  lemma {:induction false} ReplyAgrees(
    ports: map<string, int>, l: Ledger, st: Store, containers: seq<string>, message: Option<Message>,
    replies: seq<Reply>, k: nat, e: Ending)
    requires EndsWith(ports, containers, replies, e) && AtCall(l, st, containers, message, e.results, k)
    ensures var l1 := After(ports, l, Replies(0, replies[k]));
      if k + 1 < |replies| then AtCall(l1, st, containers, message, e.results, k + 1)
      else l1.store == StoreAfter(st, message, |containers|, e)
  {
    var results, job := e.results, l.flying[0];
    assert results[..k + 1] == results[..k] + [results[k]];
    TrackExtends(Begin(st, message), results[..k], results[k]);
    if replies[k].Json? {
      assert AllOutputs(results[..k + 1]);
      var tracked := l.(store := TrackContainer(l.store, containers[k], Success));
      GoesOn(ports, tracked, st, containers, message, replies, k + 1, e);
    } else {
      assert k + 1 == |replies| && results[..k + 1] == results;
    }
  }

  /** The ledger and the job runner are the same loop: a job alone, fed the replies of the
      runner's containers, is a history of the ledger, and leaves the store the runner leaves. */
  lemma {:induction false} LedgerAgrees(
    ports: map<string, int>, completed: map<string, JobResult>, containers: seq<string>, message: Option<Message>,
    replies: seq<Reply>, e: Ending)
    requires EndsWith(ports, containers, replies, e)
    requires message.Some? ==> FormatKey(message.value) !in completed
    ensures History(ports, Opened(completed), OneJob(containers, message, replies))
    ensures Outcome(ports, Opened(completed), OneJob(containers, message, replies)).store
         == StoreAfter(Opened(completed).store, message, |containers|, e)
  {
    var l, job := Opened(completed), Job(containers, message, []);
    var events := OneJob(containers, message, replies);
    var launched := Launched(l, 0, job);
    assert e.results[..0] == [] && events[1..] == RepliesOf(replies);
    GoesOn(ports, launched, l.store, containers, message, replies, 0, e);
    var l1 := After(ports, l, events[0]);
    assert l1 == Proceed(ports, launched, 0, job);
    if replies != [] {
      assert replies[0..] == replies;
      RepliesAgree(ports, l1, l.store, containers, message, replies, 0, e);
    } else {
      assert RepliesOf(replies) == [];
    }
  }
}
