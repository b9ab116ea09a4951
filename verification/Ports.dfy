/** Port assignment for container configurations (src/utils/container.py). */
module Ports {

  datatype Option<T> = None | Some(value: T)

  const FIRST_PORT: int := 3999

  class InfernetContainer {
    const id: string
    var port: Option<int>

    constructor (id: string, port: Option<int>)
      ensures this.id == id && this.port == port
    {
      this.id, this.port := id, port;
    }
  }

  /** All ports from `lo` to 3999 are taken. */
  predicate TakenDownTo(ports: set<int>, lo: int) {
    forall p :: lo <= p <= FIRST_PORT ==> p in ports
  }

  function Block(lo: int): (s: set<int>)
    ensures forall p :: p in s <==> lo <= p <= FIRST_PORT
    decreases FIRST_PORT + 1 - lo
  {
    if lo > FIRST_PORT then {} else {lo} + Block(lo + 1)
  }

  lemma {:induction false} BlockSize(lo: int)
    requires lo <= FIRST_PORT + 1
    ensures |Block(lo)| == FIRST_PORT + 1 - lo
    decreases FIRST_PORT + 1 - lo
  {
    if lo <= FIRST_PORT {
      BlockSize(lo + 1);
      assert Block(lo) == Block(lo + 1) + {lo};
    } else {
      assert Block(lo) == {};
    }
  }

  /** Pigeonhole: the taken block below 3999 is no larger than the set. */
  lemma {:induction false} TakenIsBounded(ports: set<int>, lo: int)
    requires lo <= FIRST_PORT + 1 && TakenDownTo(ports, lo)
    ensures FIRST_PORT + 1 - lo <= |ports|
  {
    BlockSize(lo);
    assert ports == Block(lo) + (ports - Block(lo));
    assert |ports| == |Block(lo)| + |ports - Block(lo)|;
  }

  /** `auto_assign_port`: the largest free port not above 3999; it is never further below than
      there are taken ports. */
  method AutoAssignPort(ports: set<int>) returns (port: int)
    ensures port !in ports && port <= FIRST_PORT
    ensures forall p :: port < p <= FIRST_PORT ==> p in ports
    ensures FIRST_PORT - |ports| <= port
  {
    port := FIRST_PORT;
    while port in ports
      invariant port <= FIRST_PORT && TakenDownTo(ports, port + 1)
      invariant FIRST_PORT - port <= |ports|
      decreases |ports| + port - FIRST_PORT
    {
      TakenIsBounded(ports, port);
      port := port - 1;
    }
  }

  // ------------------------------------------------------------------ assigning all ports

  /** The dict of requested ports: ids in order of first occurrence, the last request of an id. */
  datatype Requests = Requests(ids: seq<string>, port: map<string, Option<int>>)

  ghost predicate Distinct<T>(s: seq<T>) { forall i, j :: 0 <= i < j < |s| ==> s[i] != s[j] }

  ghost predicate IsInjective(m: map<string, int>) {
    forall a, b :: a in m && b in m && a != b ==> m[a] != m[b]
  }

  /** The ports of the first i ids. */
  function Taken(ids: seq<string>, given: map<string, int>, i: nat): set<int>
    requires i <= |ids| && forall k :: 0 <= k < i ==> ids[k] in given
  {
    if i == 0 then {} else Taken(ids, given, i - 1) + {given[ids[i - 1]]}
  }

  /** A request is kept unless an earlier id has the port; otherwise the id gets the largest
      free port not above 3999. */
  ghost predicate FairPort(asked: Option<int>, taken: set<int>, i: int, port: int) {
    if asked.Some? && asked.value !in taken then port == asked.value
    else FIRST_PORT - i <= port <= FIRST_PORT && port !in taken
         && forall p :: port < p <= FIRST_PORT ==> p in taken
  }

  /** The i-th id is treated fairly, given the ports of the ids before it. */
  ghost predicate Fair(r: Requests, given: map<string, int>, i: nat)
    requires i < |r.ids| && (forall k :: 0 <= k <= i ==> r.ids[k] in given) && r.ids[i] in r.port
  {
    FairPort(r.port[r.ids[i]], Taken(r.ids, given, i), i, given[r.ids[i]])
  }

  lemma {:induction false} TakenAgrees(ids: seq<string>, a: map<string, int>, b: map<string, int>, i: nat)
    requires i <= |ids| && forall k :: 0 <= k < i ==> ids[k] in a && ids[k] in b && a[ids[k]] == b[ids[k]]
    ensures Taken(ids, a, i) == Taken(ids, b, i)
  {
    if i > 0 { TakenAgrees(ids, a, b, i - 1); }
  }

  lemma {:induction false} TakenSize(ids: seq<string>, given: map<string, int>, i: nat)
    requires i <= |ids| && forall k :: 0 <= k < i ==> ids[k] in given
    ensures |Taken(ids, given, i)| <= i
  {
    if i > 0 { TakenSize(ids, given, i - 1); }
  }

  lemma {:induction false} TakenMembers(ids: seq<string>, given: map<string, int>, i: nat, p: int)
    requires i <= |ids| && forall k :: 0 <= k < i ==> ids[k] in given
    ensures p in Taken(ids, given, i) <==> exists k :: 0 <= k < i && given[ids[k]] == p
  {
    if i > 0 { TakenMembers(ids, given, i - 1, p); }
  }

  /** What one configuration asks for. */
  datatype Ask = Ask(id: string, port: Option<int>)

  ghost function Asks(configs: seq<InfernetContainer>): seq<Ask>
    reads configs
  {
    seq(|configs|, i requires 0 <= i < |configs| reads configs => Ask(configs[i].id, configs[i].port))
  }

  /** When `ids[k]` is first asked for, exactly the ids before it have been asked for. */
  ghost predicate FirstAsk(asks: seq<Ask>, ids: seq<string>, k: nat)
    requires k < |ids|
  {
    exists i :: 0 <= i < |asks| && asks[i].id == ids[k] && forall j :: 0 <= j < i ==> asks[j].id in ids[..k]
  }

  /** The last configuration with this id asks for this port. */
  ghost predicate LastAsk(asks: seq<Ask>, id: string, port: Option<int>) {
    exists i :: 0 <= i < |asks| && asks[i] == Ask(id, port) && forall j :: i < j < |asks| ==> asks[j].id != id
  }

  ghost predicate Collected(asks: seq<Ask>, r: Requests) {
    Distinct(r.ids) && (forall id :: id in r.ids <==> id in r.port)
    && (forall i :: 0 <= i < |asks| ==> asks[i].id in r.port)
    && (forall k :: 0 <= k < |r.ids| ==> FirstAsk(asks, r.ids, k))
    && (forall id :: id in r.port ==> LastAsk(asks, id, r.port[id]))
  }

  /** `dict[id] = port`: a new id goes to the end, a known one keeps its place. */
  function Put(r: Requests, ask: Ask): Requests {
    Requests(if ask.id in r.port then r.ids else r.ids + [ask.id], r.port[ask.id := ask.port])
  }

  lemma {:induction false} PutFirst(asks: seq<Ask>, r: Requests, ask: Ask, k: nat)
    requires Collected(asks, r) && k < |Put(r, ask).ids|
    ensures FirstAsk(asks + [ask], Put(r, ask).ids, k)
  {
    var more, ids := asks + [ask], Put(r, ask).ids;
    assert ids[..k] == r.ids[..k];
    if k < |r.ids| {
      assert FirstAsk(asks, r.ids, k);
      var i :| 0 <= i < |asks| && asks[i].id == r.ids[k] && forall j :: 0 <= j < i ==> asks[j].id in r.ids[..k];
      assert more[i].id == ids[k];
    } else {
      assert r.ids[..k] == r.ids && more[|asks|].id == ids[k];
    }
  }

  lemma {:induction false} PutLast(asks: seq<Ask>, r: Requests, ask: Ask, id: string)
    requires Collected(asks, r) && id in Put(r, ask).port
    ensures LastAsk(asks + [ask], id, Put(r, ask).port[id])
  {
    var more := asks + [ask];
    if id == ask.id {
      assert more[|asks|] == Ask(id, ask.port);
    } else {
      assert LastAsk(asks, id, r.port[id]);
      var i :| 0 <= i < |asks| && asks[i] == Ask(id, r.port[id]) && forall j :: i < j < |asks| ==> asks[j].id != id;
      assert more[i] == Ask(id, r.port[id]);
    }
  }

  lemma {:induction false} PutKeeps(asks: seq<Ask>, r: Requests, ask: Ask)
    requires Collected(asks, r)
    ensures Collected(asks + [ask], Put(r, ask))
  {
    forall k | 0 <= k < |Put(r, ask).ids| ensures FirstAsk(asks + [ask], Put(r, ask).ids, k) {
      PutFirst(asks, r, ask, k);
    }
    forall id | id in Put(r, ask).port ensures LastAsk(asks + [ask], id, Put(r, ask).port[id]) {
      PutLast(asks, r, ask, id);
    }
  }

  /** The dict comprehension over the configurations. */
  method Collect(configs: seq<InfernetContainer>) returns (r: Requests)
    ensures Collected(Asks(configs), r)
  {
    r := Requests([], map[]);
    ghost var asks := Asks(configs);
    for n := 0 to |configs|
      invariant Collected(asks[..n], r)
    {
      var c := configs[n];
      PutKeeps(asks[..n], r, asks[n]);
      assert asks[..n + 1] == asks[..n] + [asks[n]];
      r := Put(r, Ask(c.id, c.port));
    }
    assert asks[..|configs|] == asks;
  }

  /** The first n ids, and no others, have a port; all different and fair. */
  ghost predicate AssignedUpTo(r: Requests, given: map<string, int>, n: nat) {
    n <= |r.ids| && (forall k :: 0 <= k < n ==> r.ids[k] in given && r.ids[k] in r.port)
    && (forall id :: id in given ==> id in r.ids[..n])
    && IsInjective(given)
    && given.Values == Taken(r.ids, given, n)
    && (forall i :: 0 <= i < n ==> Fair(r, given, i))
  }

  lemma {:induction false} AssignNext(r: Requests, given: map<string, int>, n: nat, port: int)
    requires Distinct(r.ids) && AssignedUpTo(r, given, n) && n < |r.ids| && r.ids[n] in r.port
    requires FairPort(r.port[r.ids[n]], given.Values, n, port) && port !in given.Values
    ensures AssignedUpTo(r, given[r.ids[n] := port], n + 1)
  {
    var next := given[r.ids[n] := port];
    assert r.ids[n] !in given;
    assert r.ids[..n + 1] == r.ids[..n] + [r.ids[n]];
    TakenAgrees(r.ids, given, next, n);
    assert next.Values == given.Values + {port} by {
      forall p | p in given.Values ensures p in next.Values {
        var id :| id in given && given[id] == p;
        assert id in next && next[id] == p;
      }
      assert r.ids[n] in next;
    }
    forall i | 0 <= i < n + 1 ensures Fair(r, next, i) {
      if i < n {
        TakenAgrees(r.ids, given, next, i);
        assert Fair(r, given, i);
      }
    }
  }

  lemma {:induction false} AssignedAll(r: Requests, given: map<string, int>)
    requires AssignedUpTo(r, given, |r.ids|) && forall id :: id in r.ids <==> id in r.port
    ensures given.Keys == r.port.Keys
  {
    assert r.ids[..|r.ids|] == r.ids;
    forall id | id in r.ids ensures id in given {
      var k :| 0 <= k < |r.ids| && r.ids[k] == id;
    }
  }

  /** The port one id gets. */
  method Choose(asked: Option<int>, taken: set<int>, ghost n: nat) returns (port: int)
    requires |taken| <= n
    ensures FairPort(asked, taken, n, port) && port !in taken
  {
    if asked.Some? && asked.value !in taken {
      port := asked.value;
    } else {
      port := AutoAssignPort(taken);
    }
  }

  /** The loop over the requests. */
  method Assign(r: Requests) returns (given: map<string, int>)
    requires Distinct(r.ids) && forall id :: id in r.ids <==> id in r.port
    ensures given.Keys == r.port.Keys && IsInjective(given)
    ensures forall i :: 0 <= i < |r.ids| ==> Fair(r, given, i)
  {
    given := map[];
    for n := 0 to |r.ids|
      invariant AssignedUpTo(r, given, n)
    {
      var id := r.ids[n];
      TakenSize(r.ids, given, n);
      var chosen := Choose(r.port[id], given.Values, n);
      AssignNext(r, given, n, chosen);
      given := given[id := chosen];
    }
    AssignedAll(r, given);
  }

  /** `assign_ports`: overwrites the port of every configuration in place.  Configurations with
      different ids end up with different ports, and every request is treated fairly. */
  method AssignPorts(configs: seq<InfernetContainer>) returns (r: Requests, given: map<string, int>)
    modifies configs
    ensures forall i :: 0 <= i < |configs| ==>
      configs[i].id in given && configs[i].port == Some(given[configs[i].id])
    ensures forall i, j :: 0 <= i < |configs| && 0 <= j < |configs| ==>
      (configs[i].port == configs[j].port <==> configs[i].id == configs[j].id)
    ensures Collected(old(Asks(configs)), r) && given.Keys == r.port.Keys
    ensures forall i :: 0 <= i < |r.ids| ==> Fair(r, given, i)
  {
    ghost var asks := Asks(configs);
    var requests := Collect(configs);
    assert forall i :: 0 <= i < |configs| ==> configs[i].id == asks[i].id && asks[i].id in requests.port;
    var ports := Assign(requests);
    r, given := requests, ports;
    for n := 0 to |configs|
      invariant forall i :: 0 <= i < n ==> configs[i].port == Some(ports[configs[i].id])
    {
      configs[n].port := Some(ports[configs[n].id]);
    }
  }
}
