/** The table from hashes to container lists (src/chain/container_lookup.py). */
module ContainerLookup {
  import opened Strings

  predicate Distinct<T(==)>(s: seq<T>) {
    forall i, j :: 0 <= i < j < |s| ==> s[i] != s[j]
  }

  function Without(ids: seq<string>, i: nat): seq<string>
    requires i < |ids|
  {
    ids[..i] + ids[i + 1..]
  }

  function Prepend(x: string, ps: seq<seq<string>>): (r: seq<seq<string>>)
    ensures |r| == |ps| && forall k :: 0 <= k < |ps| ==> r[k] == [x] + ps[k]
  {
    seq(|ps|, k requires 0 <= k < |ps| => [x] + ps[k])
  }

  /** `itertools.permutations(ids, r)`, in its order: the first element by position, then the
      permutations of the others. */
  function Permutations(ids: seq<string>, r: nat): seq<seq<string>>
    decreases r, |ids| + 2
  {
    if r == 0 then [[]] else StartingFrom(ids, r, 0)
  }

  function StartingFrom(ids: seq<string>, r: nat, i: nat): seq<seq<string>>
    requires r > 0 && i <= |ids|
    decreases r, |ids| - i + 1
  {
    if i == |ids| then []
    else Prepend(ids[i], Permutations(Without(ids, i), r - 1)) + StartingFrom(ids, r, i + 1)
  }

  function JoinAll(ps: seq<seq<string>>): (r: seq<string>)
    ensures |r| == |ps| && forall k :: 0 <= k < |ps| ==> r[k] == Join(ps[k], ',')
  {
    seq(|ps|, k requires 0 <= k < |ps| => Join(ps[k], ','))
  }

  /** The joined permutations of `lo` up to (and excluding) `hi` elements. */
  function JoinedUpTo(ids: seq<string>, lo: nat, hi: nat): seq<string>
    requires lo <= hi
    decreases hi
  {
    if lo == hi then [] else JoinedUpTo(ids, lo, hi - 1) + JoinAll(Permutations(ids, hi - 1))
  }

  /** `get_all_comma_separated_permutations`: the single ids, then a loop over the sizes. */
  method AllCommaSeparated(containers: seq<string>) returns (all: seq<string>)
    ensures all == AllStrings(containers)
  {
    var permuted: seq<string> := [];
    var n := |containers|;
    if n >= 2 {
      for r := 2 to n + 1
        invariant permuted == JoinedUpTo(containers, 2, r)
      {
        permuted := permuted + JoinAll(Permutations(containers, r));
      }
    }
    all := containers + permuted;
  }

  function AllStrings(ids: seq<string>): seq<string> {
    ids + if |ids| >= 2 then JoinedUpTo(ids, 2, |ids| + 1) else []
  }

  /** The dict comprehension: a later string overwrites an earlier one with the same hash. */
  function Table<H>(hash: string -> H, all: seq<string>): map<H, seq<string>> {
    if all == [] then map[]
    else
      var last := all[|all| - 1];
      Table(hash, all[..|all| - 1])[hash(last) := Split(last, ',')]
  }

  function GetContainers<H>(table: map<H, seq<string>>, h: H): seq<string> {
    if h in table then table[h] else []
  }

  // ------------------------------------------------------------- what the permutations are

  /** An ordered, duplicate-free choice of `r` of the ids. */
  predicate Selection(ids: seq<string>, r: nat, p: seq<string>) {
    |p| == r && Distinct(p) && forall x :: x in p ==> x in ids
  }

  lemma {:induction false} WithoutFacts(ids: seq<string>, i: nat)
    requires Distinct(ids) && i < |ids|
    ensures Distinct(Without(ids, i))
    ensures forall x :: x in Without(ids, i) <==> x in ids && x != ids[i]
  {
    var w := Without(ids, i);
    forall x | x in ids && x != ids[i] ensures x in w {
      var k :| 0 <= k < |ids| && ids[k] == x;
      assert w[if k < i then k else k - 1] == x;
    }
    forall x | x in w ensures x in ids && x != ids[i] {
      var k :| 0 <= k < |w| && w[k] == x;
      assert ids[if k < i then k else k + 1] == x;
    }
    forall a, b | 0 <= a < b < |w| ensures w[a] != w[b] {
      assert w[a] == ids[if a < i then a else a + 1];
      assert w[b] == ids[if b < i then b else b + 1];
    }
  }

  /** The permutations of size r are exactly the selections of size r. */
  lemma {:induction false} PermutationsAreSelections(ids: seq<string>, r: nat, p: seq<string>)
    requires Distinct(ids)
    ensures p in Permutations(ids, r) <==> Selection(ids, r, p)
    decreases r, |ids| + 2
  {
    if r == 0 {
      if |p| == 0 { assert p == []; assert Permutations(ids, 0)[0] == p; }
    } else {
      StartingFromAreSelections(ids, r, 0, p);
      if Selection(ids, r, p) { assert p[0] in p; assert p[0] in ids[0..]; }
    }
  }

  lemma {:induction false} StartingFromAreSelections(ids: seq<string>, r: nat, i: nat, p: seq<string>)
    requires Distinct(ids) && r > 0 && i <= |ids|
    ensures p in StartingFrom(ids, r, i) <==> Selection(ids, r, p) && p[0] in ids[i..]
    decreases r, |ids| - i + 1
  {
    if i < |ids| {
      StartingFromAreSelections(ids, r, i + 1, p);
      assert ids[i..] == [ids[i]] + ids[i + 1..];
      var tails := Permutations(Without(ids, i), r - 1);
      WithoutFacts(ids, i);
      if p in Prepend(ids[i], tails) {
        var k :| 0 <= k < |tails| && p == [ids[i]] + tails[k];
        PermutationsAreSelections(Without(ids, i), r - 1, tails[k]);
        SelectionSplit(ids, i, r, tails[k]);
      }
      if Selection(ids, r, p) && p[0] == ids[i] {
        assert p == [ids[i]] + p[1..];
        SelectionSplit(ids, i, r, p[1..]);
        PermutationsAreSelections(Without(ids, i), r - 1, p[1..]);
        var k :| 0 <= k < |tails| && tails[k] == p[1..];
        assert Prepend(ids[i], tails)[k] == p;
      }
    }
  }

  lemma {:induction false} SelectionSplit(ids: seq<string>, i: nat, r: nat, t: seq<string>)
    requires Distinct(ids) && i < |ids| && r > 0
    ensures Selection(ids, r, [ids[i]] + t) <==> Selection(Without(ids, i), r - 1, t)
  {
    WithoutFacts(ids, i);
    var p := [ids[i]] + t;
    if Selection(Without(ids, i), r - 1, t) {
      forall a, b | 0 <= a < b < |p| ensures p[a] != p[b] {
        assert p[b] == t[b - 1] && t[b - 1] in t;
      }
    }
    if Selection(ids, r, p) {
      forall a, b | 0 <= a < b < |t| ensures t[a] != t[b] {
        assert t[a] == p[a + 1] && t[b] == p[b + 1];
      }
      forall x | x in t ensures x in Without(ids, i) {
        var k :| 0 <= k < |t| && t[k] == x;
        assert p[k + 1] == x && p[0] != p[k + 1];
      }
    }
  }

  /** n! / (n - r)!, as a product. */
  function Falling(n: nat, r: nat): nat {
    if r == 0 then 1 else if n == 0 then 0 else n * Falling(n - 1, r - 1)
  }

  function Factorial(n: nat): nat { if n == 0 then 1 else n * Factorial(n - 1) }

  lemma {:induction false} FallingIsQuotient(n: nat, r: nat)
    requires r <= n
    ensures Falling(n, r) * Factorial(n - r) == Factorial(n)
  {
    if r > 0 {
      FallingIsQuotient(n - 1, r - 1);
      assert n * Falling(n - 1, r - 1) * Factorial(n - r) == n * (Falling(n - 1, r - 1) * Factorial(n - r));
    }
  }

  lemma {:induction false} PermutationsCount(ids: seq<string>, r: nat)
    ensures |Permutations(ids, r)| == Falling(|ids|, r)
    decreases r, |ids| + 2
  {
    if r > 0 {
      StartingFromCount(ids, r, 0);
    }
  }

  lemma {:induction false} StartingFromCount(ids: seq<string>, r: nat, i: nat)
    requires r > 0 && i <= |ids|
    ensures |StartingFrom(ids, r, i)| == (|ids| - i) * if |ids| == 0 then 0 else Falling(|ids| - 1, r - 1)
    decreases r, |ids| - i + 1
  {
    if i < |ids| {
      PermutationsCount(Without(ids, i), r - 1);
      StartingFromCount(ids, r, i + 1);
      var f := Falling(|ids| - 1, r - 1);
      assert (|ids| - i) * f == f + (|ids| - (i + 1)) * f;
    }
  }

  lemma {:induction false} PermutationsDistinct(ids: seq<string>, r: nat)
    requires Distinct(ids)
    ensures Distinct(Permutations(ids, r))
    decreases r, |ids| + 2
  {
    if r > 0 { StartingFromDistinct(ids, r, 0); }
  }

  lemma {:induction false} StartingFromDistinct(ids: seq<string>, r: nat, i: nat)
    requires Distinct(ids) && r > 0 && i <= |ids|
    ensures Distinct(StartingFrom(ids, r, i))
    decreases r, |ids| - i + 1
  {
    if i < |ids| {
      WithoutFacts(ids, i);
      var tails := Permutations(Without(ids, i), r - 1);
      PermutationsDistinct(Without(ids, i), r - 1);
      StartingFromDistinct(ids, r, i + 1);
      var a, b := Prepend(ids[i], tails), StartingFrom(ids, r, i + 1);
      forall k, l | 0 <= k < |a| && 0 <= l < |b| ensures a[k] != b[l] {
        assert b[l] in b;
        StartingFromAreSelections(ids, r, i + 1, b[l]);
        assert a[k][0] == ids[i];
      }
      forall k, l | 0 <= k < l < |a| ensures a[k] != a[l] {
        assert a[k][1..] == tails[k] && a[l][1..] == tails[l];
      }
    }
  }

  // ------------------------------------------------------------------------ all strings

  /** A non-empty selection. */
  predicate Choice(ids: seq<string>, p: seq<string>) {
    p != [] && Selection(ids, |p|, p)
  }

  lemma {:induction false} ChoiceIsShort(ids: seq<string>, p: seq<string>)
    requires Distinct(ids) && Choice(ids, p)
    ensures |p| <= |ids|
  {
    SeqSize(p);
    SeqSize(ids);
    var a, b := set x | x in p, set x | x in ids;
    SubsetSize(a, b);
  }

  lemma {:induction false} SubsetSize<T>(a: set<T>, b: set<T>)
    requires a <= b
    ensures |a| <= |b|
  {
    assert |b| == |a| + |b - a| by { assert b == a + (b - a); }
  }

  lemma {:induction false} SeqSize<T>(s: seq<T>)
    requires Distinct(s)
    ensures |set x | x in s| == |s|
  {
    if s != [] {
      var last, front := s[|s| - 1], s[..|s| - 1];
      SeqSize(front);
      assert (set x | x in s) == (set x | x in front) + {last};
    }
  }

  lemma {:induction false} JoinSingles(ids: seq<string>)
    ensures JoinAll(Permutations(ids, 1)) == ids
  {
    SinglesFrom(ids, 0);
    var ps := Permutations(ids, 1);
    assert ps == seq(|ids|, k requires 0 <= k < |ids| => [ids[k]]) by { assert ids[0..] == ids; }
    assert JoinAll(ps) == ids;
  }

  lemma {:induction false} SinglesFrom(ids: seq<string>, i: nat)
    requires i <= |ids|
    ensures |StartingFrom(ids, 1, i)| == |ids| - i
    ensures forall k :: 0 <= k < |ids| - i ==> StartingFrom(ids, 1, i)[k] == [ids[i + k]]
    decreases |ids| - i
  {
    if i < |ids| {
      SinglesFrom(ids, i + 1);
      assert [ids[i]] + [] == [ids[i]];
      assert StartingFrom(ids, 1, i) == [[ids[i]]] + StartingFrom(ids, 1, i + 1);
    }
  }

  /** The list of the source is the joined permutations of all sizes from 1. */
  lemma {:induction false} AllStringsIsJoined(ids: seq<string>)
    ensures AllStrings(ids) == JoinedUpTo(ids, 1, |ids| + 1)
  {
    JoinSingles(ids);
    if |ids| >= 1 {
      assert JoinedUpTo(ids, 1, 2) == JoinedUpTo(ids, 1, 1) + JoinAll(Permutations(ids, 1));
      JoinedConcat(ids, 1, 2, |ids| + 1);
    }
  }

  lemma {:induction false} JoinedConcat(ids: seq<string>, a: nat, b: nat, c: nat)
    requires a <= b <= c
    ensures JoinedUpTo(ids, a, c) == JoinedUpTo(ids, a, b) + JoinedUpTo(ids, b, c)
    decreases c
  {
    if b < c { JoinedConcat(ids, a, b, c - 1); }
  }

  lemma {:induction false} JoinedHas(ids: seq<string>, lo: nat, hi: nat, p: seq<string>)
    requires Distinct(ids) && lo <= |p| < hi && Selection(ids, |p|, p)
    ensures Join(p, ',') in JoinedUpTo(ids, lo, hi)
    decreases hi
  {
    if |p| < hi - 1 {
      JoinedHas(ids, lo, hi - 1, p);
    } else {
      var ps := Permutations(ids, |p|);
      PermutationsAreSelections(ids, |p|, p);
      var k :| 0 <= k < |ps| && ps[k] == p;
      assert JoinAll(ps)[k] == Join(p, ',');
    }
  }

  lemma {:induction false} JoinedComesFrom(ids: seq<string>, lo: nat, hi: nat, s: string) returns (p: seq<string>)
    requires Distinct(ids) && lo <= hi && s in JoinedUpTo(ids, lo, hi)
    ensures lo <= |p| < hi && Selection(ids, |p|, p) && s == Join(p, ',')
    decreases hi
  {
    if s in JoinedUpTo(ids, lo, hi - 1) {
      p := JoinedComesFrom(ids, lo, hi - 1, s);
    } else {
      var ps := Permutations(ids, hi - 1);
      var k :| 0 <= k < |ps| && s == JoinAll(ps)[k];
      p := ps[k];
      PermutationsAreSelections(ids, hi - 1, p);
    }
  }

  // ------------------------------------------------------------------------ the table

  ghost predicate Injective<H(!new)>(hash: string -> H) {
    forall a, b :: hash(a) == hash(b) ==> a == b
  }

  lemma {:induction false} TableMembers<H(!new)>(hash: string -> H, all: seq<string>, h: H)
    requires Injective(hash)
    ensures h in Table(hash, all) <==> exists s :: s in all && h == hash(s)
    ensures forall s :: s in all && h == hash(s) ==> h in Table(hash, all) && Table(hash, all)[h] == Split(s, ',')
  {
    if all != [] {
      var last, front := all[|all| - 1], all[..|all| - 1];
      TableMembers(hash, front, h);
      assert all == front + [last];
      if h == hash(last) { assert last in all; }
    }
  }

  ghost predicate Configured(ids: seq<string>) { Distinct(ids) && AllFree(ids, ',') }

  /** The table is exact.  For distinct, comma-free ids and an injective hash, the hash of a
      joined choice of containers gives back that choice, and every other hash gives the empty
      list. */
  lemma {:induction false} LookupExact<H(!new)>(hash: string -> H, ids: seq<string>, h: H)
    requires Configured(ids) && Injective(hash)
    ensures forall p :: Choice(ids, p) && h == hash(Join(p, ',')) ==>
      GetContainers(Table(hash, AllStrings(ids)), h) == p
    ensures (forall p :: Choice(ids, p) ==> h != hash(Join(p, ','))) ==>
      GetContainers(Table(hash, AllStrings(ids)), h) == []
  {
    var all := AllStrings(ids);
    AllStringsIsJoined(ids);
    TableMembers(hash, all, h);
    forall p | Choice(ids, p) && h == hash(Join(p, ',')) ensures GetContainers(Table(hash, all), h) == p {
      ChoiceIsShort(ids, p);
      JoinedHas(ids, 1, |ids| + 1, p);
      SplitJoinFree(p, ',');
    }
    if h in Table(hash, all) {
      var s :| s in all && h == hash(s);
      var p := JoinedComesFrom(ids, 1, |ids| + 1, s);
    }
  }

  /** What the table answers is empty or a choice of configured containers. */
  lemma {:induction false} LookupIsConfigured<H(!new)>(hash: string -> H, ids: seq<string>, h: H)
    requires Configured(ids) && Injective(hash)
    ensures var got := GetContainers(Table(hash, AllStrings(ids)), h);
      got == [] || (Choice(ids, got) && h == hash(Join(got, ',')))
  {
    LookupExact(hash, ids, h);
    if exists p :: Choice(ids, p) && h == hash(Join(p, ',')) {
      var p :| Choice(ids, p) && h == hash(Join(p, ','));
    }
  }

  function SumFalling(n: nat, lo: nat, hi: nat): nat
    requires lo <= hi
    decreases hi
  {
    if lo == hi then 0 else SumFalling(n, lo, hi - 1) + Falling(n, hi - 1)
  }

  lemma {:induction false} JoinedSizeDistinct(ids: seq<string>, r: nat)
    requires Configured(ids) && r >= 1
    ensures var b := JoinAll(Permutations(ids, r));
      && Distinct(b) && |b| == Falling(|ids|, r)
      && forall k :: 0 <= k < |b| ==> |Split(b[k], ',')| == r
  {
    PermutationsDistinct(ids, r);
    PermutationsCount(ids, r);
    var ps := Permutations(ids, r);
    var b := JoinAll(ps);
    forall k | 0 <= k < |ps| ensures Split(b[k], ',') == ps[k] && |ps[k]| == r {
      assert ps[k] in ps;
      PermutationsAreSelections(ids, r, ps[k]);
      SplitJoinFree(ps[k], ',');
    }
    forall k, l | 0 <= k < l < |b| ensures b[k] != b[l] {
      assert ps[k] != ps[l];
    }
  }

  lemma {:induction false} JoinedDistinct(ids: seq<string>, lo: nat, hi: nat)
    requires Configured(ids) && 1 <= lo <= hi
    ensures Distinct(JoinedUpTo(ids, lo, hi))
    ensures |JoinedUpTo(ids, lo, hi)| == SumFalling(|ids|, lo, hi)
    ensures forall k :: 0 <= k < |JoinedUpTo(ids, lo, hi)| ==> |Split(JoinedUpTo(ids, lo, hi)[k], ',')| < hi
    decreases hi
  {
    if lo < hi {
      JoinedDistinct(ids, lo, hi - 1);
      JoinedSizeDistinct(ids, hi - 1);
    }
  }

  lemma {:induction false} TableSize<H(!new)>(hash: string -> H, all: seq<string>)
    requires Injective(hash) && Distinct(all)
    ensures |Table(hash, all)| == |all|
  {
    if all != [] {
      var last, front := all[|all| - 1], all[..|all| - 1];
      TableSize(hash, front);
      TableMembers(hash, front, hash(last));
      assert last !in front;
      assert Table(hash, all).Keys == Table(hash, front).Keys + {hash(last)};
      assert |Table(hash, all).Keys| == |Table(hash, front).Keys| + 1;
    }
  }

  /** The table has one entry per choice: the sum over r of n! / (n - r)!. */
  lemma {:induction false} LookupSize<H(!new)>(hash: string -> H, ids: seq<string>)
    requires Configured(ids) && Injective(hash)
    ensures |Table(hash, AllStrings(ids))| == SumFalling(|ids|, 1, |ids| + 1)
  {
    AllStringsIsJoined(ids);
    JoinedDistinct(ids, 1, |ids| + 1);
    TableSize(hash, AllStrings(ids));
  }

  /** An entry decodes to the containers it was built from if and only if none of their ids
      contains a comma. */
  lemma {:induction false} EntryDecodesExactly<H(!new)>(hash: string -> H, ids: seq<string>, p: seq<string>)
    requires Distinct(ids) && Injective(hash) && Choice(ids, p)
    ensures GetContainers(Table(hash, AllStrings(ids)), hash(Join(p, ','))) == p <==> AllFree(p, ',')
  {
    AllStringsIsJoined(ids);
    ChoiceIsShort(ids, p);
    JoinedHas(ids, 1, |ids| + 1, p);
    TableMembers(hash, AllStrings(ids), hash(Join(p, ',')));
    SplitJoinRoundTrip(p, ',');
  }
}
