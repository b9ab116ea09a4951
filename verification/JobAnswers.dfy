/** What the answers of jobs are: the calls of one run, the stored answer of every finished job of
    a ledger, the replies it is made of, and the tallies of the containers. */
module JobAnswers {
  import opened Strings
  import opened JobStore
  import opened Orchestrator

  // ------------------------------------------------------------------------ calls of a run

  /** The result reports this reply of the container. */
  predicate Reports(result: ContainerResult, container: string, reply: Reply) {
    (reply.Json? ==> result == Output(container, reply.data))
    && (reply.Broken? ==> result == Error(container, reply.text))
  }

  /** Result k reports the answer to the call of container k: an off-chain input with the output
      before it, for the destination of the job if the container is the last one. */
  predicate FedAt(
    job: JobInput, containers: seq<string>, proof: bool, reply: (nat, ContainerInput) -> Reply,
    results: seq<ContainerResult>, k: nat)
    requires 0 < k < |results| <= |containers|
  {
    results[k - 1].Output?
    && var destination := if k == |containers| - 1 then job.destination else OffChainLoc;
       Reports(results[k], containers[k], reply(k, ContainerInput(OffChainLoc, destination, results[k - 1].data, proof)))
  }

  /** The first container gets the source and data of the job, every later one an off-chain input
      with the output before it; the destination of the job goes to the last container alone. */
  lemma {:induction false} CallsExact(
    ports: map<string, int>, job: JobInput, containers: seq<string>, proof: bool, reply: (nat, ContainerInput) -> Reply)
    ensures var results, n := JobRun(ports, job, containers, proof, reply, []).results, |containers|;
      |results| <= n
      && (results != [] ==>
            Reports(results[0], containers[0],
                    reply(0, ContainerInput(job.source, if n == 1 then job.destination else OffChainLoc, job.data, proof))))
      && forall k :: 0 < k < |results| ==> FedAt(job, containers, proof, reply, results, k)
  {
    JobRunIsChain(ports, job, containers, proof, reply, []);
    var results := JobRun(ports, job, containers, proof, reply, []).results;
    forall k | 0 < k < |results| ensures FedAt(job, containers, proof, reply, results, k) {
      assert AnswersAt(job, containers, proof, reply, results, k);
    }
    if results != [] { assert AnswersAt(job, containers, proof, reply, results, 0); }
  }

  /** An off-chain job that ends leaves its answer: all of its results, with the status success
      exactly if the last one, if any, is not an error. */
  lemma {:induction false} RunStores(
    st: Store, ports: map<string, int>, job: JobInput, containers: seq<string>, m: Message, proof: bool,
    reply: (nat, ContainerInput) -> Reply)
    ensures var e := JobRun(ports, job, containers, proof, reply, []);
      var st', key := StoreAfter(st, Some(m), |containers|, e), FormatKey(m);
      if e.Ended? then
        key !in st'.pending && key in st'.completed
        && HoldsAnswer(st'.completed[key], m,
                       if e.results != [] && e.results[|e.results| - 1].Error? then Failed else Success, e.results)
      else
        key in st'.pending && HoldsAnswer(st'.pending[key], m, Running, []) && st'.completed == st.completed
  {
    JobRunIsChain(ports, job, containers, proof, reply, []);
    var e := JobRun(ports, job, containers, proof, reply, []);
    TrackKeepsDatabases(Begin(st, Some(m)), e.results);
  }

  lemma {:induction false} TrackKeepsDatabases(st: Store, results: seq<ContainerResult>)
    ensures var st' := TrackAll(st, results); st'.pending == st.pending && st'.completed == st.completed
  {
    if results != [] { TrackKeepsDatabases(st, results[..|results| - 1]); }
  }

  // ------------------------------------------------------------------------------- tallies

  function Positions(results: seq<ContainerResult>, container: string, output: bool): set<nat> {
    set i | 0 <= i < |results| && results[i].container == container && results[i].Output? == output
  }

  /** The success tally of a container grows by the number of its outputs among the results, its
      failure tally by the number of its errors. */
  lemma {:induction false} TalliesAdd(st: Store, results: seq<ContainerResult>, c: string)
    ensures TallyOf(TrackAll(st, results), c).success == TallyOf(st, c).success + |Positions(results, c, true)|
    ensures TallyOf(TrackAll(st, results), c).failed == TallyOf(st, c).failed + |Positions(results, c, false)|
    decreases |results|
  {
    if results == [] {
      assert Positions(results, c, true) == {} && Positions(results, c, false) == {};
    } else {
      var front, last := results[..|results| - 1], results[|results| - 1];
      TalliesAdd(st, front, c);
      TrackCounts(TrackAll(st, front), last.container, if last.Output? then Success else Failed, c);
      PositionsGrow(front, last, c, true);
      PositionsGrow(front, last, c, false);
      assert front + [last] == results;
    }
  }

  lemma {:induction false} PositionsGrow(front: seq<ContainerResult>, last: ContainerResult, c: string, output: bool)
    ensures |Positions(front + [last], c, output)|
         == |Positions(front, c, output)| + if last.container == c && last.Output? == output then 1 else 0
  {
    var longer, before := front + [last], Positions(front, c, output);
    forall i: nat ensures i in Positions(longer, c, output) <==>
      i in before || (i == |front| && last.container == c && last.Output? == output) {
      if i < |front| { assert longer[i] == front[i]; }
    }
    if last.container == c && last.Output? == output {
      assert Positions(longer, c, output) == before + {|front|};
    } else {
      assert Positions(longer, c, output) == before;
    }
  }

  /** How many answers of the container, JSON bodies or not, the events bring. */
  ghost function Answers(ports: map<string, int>, l: Ledger, es: seq<Event>, container: string, json: bool): nat
    requires History(ports, l, es)
    decreases |es|
  {
    if es == [] then 0
    else
      (if es[0].Replies? && es[0].reply.Json? == json
          && (var job := l.flying[es[0].j]; job.containers[|job.results|] == container) then 1 else 0)
      + Answers(ports, After(ports, l, es[0]), es[1..], container, json)
  }

  /** Going on, concluding and launching leave the tallies alone. */
  lemma {:induction false} ProceedTallies(ports: map<string, int>, l: Ledger, j: nat, job: Job)
    ensures Proceed(ports, l, j, job).store.containers == l.store.containers
  {
  }

  lemma {:induction false} ReplyTallies(ports: map<string, int>, l: Ledger, j: nat, reply: Reply)
    requires May(l, Replies(j, reply))
    ensures var job := l.flying[j];
      After(ports, l, Replies(j, reply)).store.containers
        == TrackContainer(l.store, job.containers[|job.results|], if reply.Json? then Success else Failed).containers
  {
    var job := l.flying[j];
    var container := job.containers[|job.results|];
    if reply.Json? {
      ProceedTallies(ports, l.(store := TrackContainer(l.store, container, Success)), j,
                     job.(results := job.results + [ResultOf(container, reply)]));
    }
  }

  lemma {:induction false} EventTallies(ports: map<string, int>, l: Ledger, e: Event, c: string)
    requires May(l, e)
    ensures var was, tally := TallyOf(l.store, c), TallyOf(After(ports, l, e).store, c);
      var answered := e.Replies? && (var job := l.flying[e.j]; job.containers[|job.results|] == c);
      tally.success == was.success + (if answered && e.reply.Json? then 1 else 0)
      && tally.failed == was.failed + (if answered && !e.reply.Json? then 1 else 0)
  {
    if e.Replies? {
      var job := l.flying[e.j];
      ReplyTallies(ports, l, e.j, e.reply);
      TrackCounts(l.store, job.containers[|job.results|], if e.reply.Json? then Success else Failed, c);
    } else if e.Starts? {
      var job := Job(e.containers, e.message, []);
      ProceedTallies(ports, Launched(l, e.j, job), e.j, job);
    }
  }

  /** In every interleaving each tally is the number of the container's answers of that kind. */
  lemma {:induction false} TalliesCountAnswers(ports: map<string, int>, l: Ledger, es: seq<Event>, c: string)
    requires History(ports, l, es)
    ensures var was, tally := TallyOf(l.store, c), TallyOf(Outcome(ports, l, es).store, c);
      tally.success == was.success + Answers(ports, l, es, c, true)
      && tally.failed == was.failed + Answers(ports, l, es, c, false)
    decreases |es|
  {
    if es != [] {
      EventTallies(ports, l, es[0], c);
      TalliesCountAnswers(ports, After(ports, l, es[0]), es[1..], c);
    }
  }

  // ---------------------------------------------------------- the results of a ledger's jobs

  /** The results so far are outputs of the first containers, in order. */
  predicate OutputsOf(job: Job, n: nat) {
    n <= |job.results| && n <= |job.containers|
    && forall k :: 0 <= k < n ==> job.results[k].Output? && job.results[k].container == job.containers[k]
  }

  /** A job with outputs only, whose next container exists and has a port, or has none. */
  predicate Waits(ports: map<string, int>, job: Job, port: bool) {
    OutputsOf(job, |job.results|) && |job.results| < |job.containers|
    && (job.containers[|job.results|] in ports) == port
  }

  /** Success: an output of every container.  Failure: outputs, then the error of the next one. */
  predicate EndsWell(f: Final) {
    var n := |f.job.results|;
    match f.status
    case Success => OutputsOf(f.job, n) && n == |f.job.containers|
    case Failed =>
      0 < n <= |f.job.containers| && OutputsOf(f.job, n - 1)
      && f.job.results[n - 1].Error? && f.job.results[n - 1].container == f.job.containers[n - 1]
    case Running => false
  }

  ghost predicate JobsOk(ports: map<string, int>, l: Ledger) {
    (forall j :: j in l.flying ==> Waits(ports, l.flying[j], true))
    && (forall j :: j in l.lost ==> Waits(ports, l.lost[j], false))
    && (forall j :: j in l.finished ==> EndsWell(l.finished[j]))
  }

  /** Every other job is where it was. */
  ghost predicate OthersStay(l: Ledger, l': Ledger, j: nat) {
    forall i :: i != j ==>
      (i in l'.flying ==> i in l.flying && l'.flying[i] == l.flying[i])
      && (i in l'.lost ==> i in l.lost && l'.lost[i] == l.lost[i])
      && (i in l'.finished ==> i in l.finished && l'.finished[i] == l.finished[i])
  }

  lemma {:induction false} SucceedOk(ports: map<string, int>, l: Ledger, l': Ledger, j: nat, job: Job)
    requires JobsOk(ports, l) && OthersStay(l, l', j) && j !in l'.lost
    requires OutputsOf(job, |job.results|) && |job.results| == |job.containers|
    ensures JobsOk(ports, Conclude(l', j, job, Success))
  {
    assert EndsWell(Final(job, Success));
    assert OthersStay(l, Conclude(l', j, job, Success), j);
  }

  lemma {:induction false} FailOk(ports: map<string, int>, l: Ledger, l': Ledger, j: nat, job: Job)
    requires JobsOk(ports, l) && OthersStay(l, l', j) && j !in l'.lost && EndsWell(Final(job, Failed))
    ensures JobsOk(ports, Conclude(l', j, job, Failed))
  {
    assert OthersStay(l, Conclude(l', j, job, Failed), j);
  }

  lemma {:induction false} WaitOk(ports: map<string, int>, l: Ledger, l': Ledger, j: nat, job: Job)
    requires JobsOk(ports, l) && OthersStay(l, l', j) && j !in l'.finished && j !in l'.lost
    requires Waits(ports, job, true)
    ensures JobsOk(ports, l'.(flying := l'.flying[j := job]))
  {
    assert OthersStay(l, l'.(flying := l'.flying[j := job]), j);
  }

  lemma {:induction false} LoseOk(ports: map<string, int>, l: Ledger, l': Ledger, j: nat, job: Job)
    requires JobsOk(ports, l) && OthersStay(l, l', j) && j !in l'.finished
    requires Waits(ports, job, false)
    ensures JobsOk(ports, l'.(flying := l'.flying - {j}, lost := l'.lost[j := job]))
  {
    assert OthersStay(l, l'.(flying := l'.flying - {j}, lost := l'.lost[j := job]), j);
  }

  lemma {:induction false} ProceedOk(ports: map<string, int>, l: Ledger, l': Ledger, j: nat, job: Job)
    requires JobsOk(ports, l) && OthersStay(l, l', j) && j !in l'.finished && j !in l'.lost
    requires OutputsOf(job, |job.results|)
    ensures JobsOk(ports, Proceed(ports, l', j, job))
  {
    if |job.results| == |job.containers| {
      SucceedOk(ports, l, l', j, job);
    } else if job.containers[|job.results|] in ports {
      WaitOk(ports, l, l', j, job);
    } else {
      LoseOk(ports, l, l', j, job);
    }
  }

  lemma {:induction false} ReplyOk(ports: map<string, int>, l: Ledger, j: nat, reply: Reply)
    requires PlacesOk(l) && JobsOk(ports, l) && May(l, Replies(j, reply))
    ensures JobsOk(ports, After(ports, l, Replies(j, reply)))
  {
    var job := l.flying[j];
    var n, container := |job.results|, job.containers[|job.results|];
    var job' := job.(results := job.results + [ResultOf(container, reply)]);
    assert forall k :: 0 <= k < n ==> job'.results[k] == job.results[k];
    if reply.Json? {
      var l' := l.(store := TrackContainer(l.store, container, Success));
      ProceedOk(ports, l, l', j, job');
    } else {
      assert EndsWell(Final(job', Failed));
      FailOk(ports, l, l.(store := TrackContainer(l.store, container, Failed)), j, job');
    }
  }

  lemma {:induction false} EventOk(ports: map<string, int>, l: Ledger, e: Event)
    requires PlacesOk(l) && JobsOk(ports, l) && May(l, e)
    ensures JobsOk(ports, After(ports, l, e))
  {
    match e
    case Starts(j, containers, message) =>
      var job := Job(containers, message, []);
      ProceedOk(ports, l, Launched(l, j, job), j, job);
    case Replies(j, reply) => ReplyOk(ports, l, j, reply);
    case Pops =>
    case Expires(_) =>
  }

  lemma {:induction false} JobsAlong(ports: map<string, int>, l: Ledger, es: seq<Event>)
    requires BooksOk(l) && JobsOk(ports, l) && History(ports, l, es)
    ensures JobsOk(ports, Outcome(ports, l, es))
    decreases |es|
  {
    if es != [] {
      EventKeeps(ports, l, es[0]);
      EventOk(ports, l, es[0]);
      JobsAlong(ports, After(ports, l, es[0]), es[1..]);
    }
  }

  lemma {:induction false} FoundOne(db: map<string, JobResult>, m: Message)
    ensures Found(db, [m]) == if FormatKey(m) in db then [db[FormatKey(m)]] else []
  {
    assert [m][1..] == [];
  }

  /** The stored answer of a finished off-chain job, whatever was interleaved.  Success: the result
      is the output of the last container, and the intermediate results are the outputs of those
      before it.  Failure: the result is the error of a container, and the intermediate results
      are the outputs of those before it. */
  lemma {:induction false} FinishedAnswer(
    ports: map<string, int>, completed: map<string, JobResult>, es: seq<Event>, l: Ledger, j: nat, m: Message)
    requires History(ports, Opened(completed), es) && l == Outcome(ports, Opened(completed), es)
    requires j in l.finished && l.finished[j].job.message == Some(m)
    ensures FormatKey(m) in l.store.completed && Get(l.store, [m]) == [l.store.completed[FormatKey(m)]]
    ensures var entry, containers := l.store.completed[FormatKey(m)], l.finished[j].job.containers;
      var before := entry.intermediate;
      entry.id == m.id && entry.status == l.finished[j].status && entry.status != Running
      && (entry.result == None <==> containers == [])
      && (entry.result.Some? ==>
            |before| < |containers| && entry.result.value.container == containers[|before|]
            && (entry.result.value.Output? <==> entry.status == Success)
            && (entry.status == Success ==> |before| == |containers| - 1)
            && forall k :: 0 <= k < |before| ==> before[k].Output? && before[k].container == containers[k])
  {
    KeyInOneDatabase(ports, completed, es, l);
    OpenedBalances(completed);
    JobsAlong(ports, Opened(completed), es);
    AnswerShape(l.store.completed[FormatKey(m)], l.finished[j], m);
    FoundOne(l.store.completed, m);
    FoundOne(l.store.pending, m);
  }

  lemma {:induction false} AnswerShape(entry: JobResult, f: Final, m: Message)
    requires EndsWell(f) && HoldsAnswer(entry, m, f.status, f.job.results)
    ensures var before, containers := entry.intermediate, f.job.containers;
      (entry.result == None <==> containers == [])
      && (entry.result.Some? ==>
            |before| < |containers| && entry.result.value.container == containers[|before|]
            && (entry.result.value.Output? <==> entry.status == Success)
            && (entry.status == Success ==> |before| == |containers| - 1)
            && forall k :: 0 <= k < |before| ==> before[k].Output? && before[k].container == containers[k])
  {
    var results := f.job.results;
    if results != [] {
      var n := |entry.intermediate|;
      assert (entry.intermediate + [entry.result.value])[n] == results[n];
      forall k | 0 <= k < n ensures entry.intermediate[k] == results[k] {
        assert (entry.intermediate + [entry.result.value])[k] == results[k];
      }
    }
  }

  /** A job that has not finished is found as running, unless its entry has expired. */
  lemma {:induction false} UnfinishedAnswer(
    ports: map<string, int>, completed: map<string, JobResult>, es: seq<Event>, l: Ledger, j: nat, m: Message)
    requires History(ports, Opened(completed), es) && l == Outcome(ports, Opened(completed), es)
    requires (j in l.flying && l.flying[j].message == Some(m)) || (j in l.lost && l.lost[j].message == Some(m))
    ensures Get(l.store, [m]) == if FormatKey(m) in l.store.pending then [JobResult(m.id, Running, [], None)] else []
  {
    OpenedBalances(completed);
    DatabasesAlong(ports, Opened(completed), es);
    assert KeyOf(l, j) == Some(FormatKey(m));
    assert RunningStored(l.store, m);
    FoundOne(l.store.completed, m);
    FoundOne(l.store.pending, m);
  }

  // ------------------------------------------------------------- results and their replies

  /** The job, wherever it is. */
  function JobOf(l: Ledger, j: nat): Job
    requires Known(l, j)
  {
    if j in l.flying then l.flying[j] else if j in l.finished then l.finished[j].job else l.lost[j]
  }

  /** The replies to one job among these events. */
  function RepliesTo(es: seq<Event>, j: nat): seq<Reply> {
    if es == [] then []
    else (if es[0].Replies? && es[0].j == j then [es[0].reply] else []) + RepliesTo(es[1..], j)
  }

  /** From result `n` on, the results of the job report these replies of its containers. */
  predicate ReportsFrom(job: Job, n: nat, replies: seq<Reply>) {
    |job.results| == n + |replies| <= |job.containers|
    && forall k :: 0 <= k < |replies| ==> Reports(job.results[n + k], job.containers[n + k], replies[k])
  }

  lemma {:induction false} ReplyAdds(ports: map<string, int>, l: Ledger, j: nat, reply: Reply)
    requires PlacesOk(l) && May(l, Replies(j, reply))
    ensures var l', job := After(ports, l, Replies(j, reply)), l.flying[j];
      Known(l', j) && JobOf(l', j) == job.(results := job.results + [ResultOf(job.containers[|job.results|], reply)])
  {
  }

  lemma {:induction false} ReplyKeepsOthers(ports: map<string, int>, l: Ledger, i: nat, reply: Reply, j: nat)
    requires PlacesOk(l) && Known(l, j) && May(l, Replies(i, reply)) && i != j
    ensures Known(After(ports, l, Replies(i, reply)), j) && JobOf(After(ports, l, Replies(i, reply)), j) == JobOf(l, j)
  {
  }

  /** An event changes a known job only by a reply to it, which adds one result. */
  lemma {:induction false} JobStep(ports: map<string, int>, l: Ledger, e: Event, j: nat)
    requires PlacesOk(l) && Known(l, j) && May(l, e)
    ensures var l', job := After(ports, l, e), JobOf(l, j);
      Known(l', j)
      && if e.Replies? && e.j == j
         then |job.results| < |job.containers|
              && JobOf(l', j) == job.(results := job.results + [ResultOf(job.containers[|job.results|], e.reply)])
         else JobOf(l', j) == job
  {
    if e.Replies? {
      if e.j == j { ReplyAdds(ports, l, j, e.reply); } else { ReplyKeepsOthers(ports, l, e.j, e.reply, j); }
    }
  }

  /** One more reply in front. */
  lemma {:induction false} ReportsMore(job: Job, n: nat, reply: Reply, rest: seq<Reply>)
    requires n < |job.results| && n < |job.containers| && Reports(job.results[n], job.containers[n], reply)
    requires ReportsFrom(job, n + 1, rest)
    ensures ReportsFrom(job, n, [reply] + rest)
  {
    var replies := [reply] + rest;
    forall k | 0 <= k < |replies| ensures Reports(job.results[n + k], job.containers[n + k], replies[k]) {
      if k > 0 { assert replies[k] == rest[k - 1] && n + k == n + 1 + (k - 1); }
    }
  }

  /** The job went on from its earlier state, by these replies. */
  ghost predicate GoneOn(was: Job, job: Job, replies: seq<Reply>) {
    job.containers == was.containers && job.message == was.message && was.results <= job.results
    && ReportsFrom(job, |was.results|, replies)
  }

  lemma {:induction false} GoneOnMore(was: Job, job: Job, reply: Reply, rest: seq<Reply>)
    requires |was.results| < |was.containers|
    requires GoneOn(was.(results := was.results + [ResultOf(was.containers[|was.results|], reply)]), job, rest)
    ensures GoneOn(was, job, [reply] + rest)
  {
    var n, next := |was.results|, ResultOf(was.containers[|was.results|], reply);
    assert job.results[n] == (was.results + [next])[n] == next;
    ReportsMore(job, n, reply, rest);
  }

  lemma {:induction false} RepliesAlong(ports: map<string, int>, l: Ledger, es: seq<Event>, j: nat)
    requires BooksOk(l) && History(ports, l, es) && Known(l, j) && |JobOf(l, j).results| <= |JobOf(l, j).containers|
    ensures Known(Outcome(ports, l, es), j) && GoneOn(JobOf(l, j), JobOf(Outcome(ports, l, es), j), RepliesTo(es, j))
    decreases |es|
  {
    if es != [] {
      EventKeeps(ports, l, es[0]);
      JobStep(ports, l, es[0], j);
      var l1 := After(ports, l, es[0]);
      RepliesAlong(ports, l1, es[1..], j);
      assert Outcome(ports, l, es) == Outcome(ports, l1, es[1..]);
      if es[0].Replies? && es[0].j == j {
        GoneOnMore(JobOf(l, j), JobOf(Outcome(ports, l, es), j), es[0].reply, RepliesTo(es[1..], j));
      } else {
        assert RepliesTo(es, j) == RepliesTo(es[1..], j);
      }
    }
  }

  /** In every interleaving the results of a job are the replies of its own containers, in order:
      its containers and its message are those it was started with, and no reply to another job
      gets in. */
  lemma {:induction false} ResultsAreReplies(ports: map<string, int>, l: Ledger, es: seq<Event>, j: nat)
    requires BooksOk(l) && History(ports, l, es) && !Known(l, j) && Known(Outcome(ports, l, es), j)
    ensures var job := JobOf(Outcome(ports, l, es), j);
      Starts(j, job.containers, job.message) in es && ReportsFrom(job, 0, RepliesTo(es, j))
    decreases |es|
  {
    if es != [] {
      var l1 := After(ports, l, es[0]);
      EventKeeps(ports, l, es[0]);
      if Known(l1, j) {
        StartKnows(ports, l, es[0], j);
        RepliesAlong(ports, l1, es[1..], j);
      } else {
        ResultsAreReplies(ports, l1, es[1..], j);
      }
    }
  }

  lemma {:induction false} StartKnows(ports: map<string, int>, l: Ledger, e: Event, j: nat)
    requires PlacesOk(l) && May(l, e) && !Known(l, j) && Known(After(ports, l, e), j)
    ensures e.Starts? && e.j == j && JobOf(After(ports, l, e), j) == Job(e.containers, e.message, [])
  {
  }
}
