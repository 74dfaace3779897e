/** IPv4 prefixes (section 3.1 of RFC 4632) and the removal of redundant ones. */
module Cidr {
  import opened Basics
  import opened PolicyTypes

  const ADDRESSES := 0x1_0000_0000

  type Address = a: nat | a < ADDRESSES

  /** a without its n low bits. */
  function High(a: nat, n: nat): nat {
    if n == 0 then a else High(a / 2, n - 1)
  }

  predicate Valid(p: Prefix) {
    p.ip < ADDRESSES && p.len <= 32
  }

  /** The number of bits a prefix leaves open. */
  function HostBits(p: Prefix): nat {
    if p.len <= 32 then 32 - p.len else 0
  }

  /** IPNet.Contains: equal under the mask. */
  predicate Covers(p: Prefix, a: nat) {
    High(a, HostBits(p)) == High(p.ip, HostBits(p))
  }

  ghost predicate CoveredBy(ps: seq<Prefix>, a: nat) {
    exists p :: p in ps && Covers(p, a)
  }

  /** p is at least as wide as q and holds it. */
  predicate Contains(p: Prefix, q: Prefix) {
    p.len <= q.len && Covers(p, q.ip)
  }

  /** overlap: the narrower of two prefixes one of which contains the other; the first if they are equally wide. */
  function Overlap(p: Prefix, q: Prefix): Option<Prefix> {
    if p.len < q.len then
      if Covers(p, q.ip) then Some(q) else None
    else
      if Covers(q, p.ip) then Some(p) else None
  }

  // ---------------------------------------------------------------- prefix arithmetic

  lemma {:induction false} HighSplit(a: nat, m: nat, n: nat)
    ensures High(a, m + n) == High(High(a, m), n)
  {
    if m > 0 {
      HighSplit(a / 2, m - 1, n);
    }
  }

  /** Addresses that agree on a long prefix agree on a shorter one. */
  lemma Coarsens(p: Prefix, q: Prefix, a: nat, b: nat)
    requires p.len <= q.len <= 32 && High(a, HostBits(q)) == High(b, HostBits(q))
    ensures High(a, HostBits(p)) == High(b, HostBits(p))
  {
    HighSplit(a, HostBits(q), q.len - p.len);
    HighSplit(b, HostBits(q), q.len - p.len);
  }

  /** Containment of prefixes is containment of what they cover. */
  lemma ContainsIsSubset(p: Prefix, q: Prefix)
    requires Valid(p) && Valid(q) && Contains(p, q)
    ensures forall a: nat :: Covers(q, a) ==> Covers(p, a)
  {
    forall a: nat | Covers(q, a) ensures Covers(p, a) {
      Coarsens(p, q, a, q.ip);
    }
  }

  /** a with bit n inverted. */
  function Flip(a: nat, n: nat): nat {
    if n > 0 then 2 * Flip(a / 2, n - 1) + a % 2 else if a % 2 == 0 then a + 1 else a - 1
  }

  lemma {:induction false} FlipShows(a: nat, n: nat, m: nat)
    ensures High(Flip(a, n), m) == High(a, m) <==> n < m
  {
    if n > 0 && m > 0 {
      FlipShows(a / 2, n - 1, m - 1);
    } else if n > 0 {
      FlipShows(a / 2, n - 1, 0);
    }
  }

  /** Only what is contained is covered. */
  lemma SubsetIsContained(p: Prefix, q: Prefix)
    requires Valid(p) && Valid(q) && forall a: nat :: Covers(q, a) ==> Covers(p, a)
    ensures Contains(p, q)
  {
    assert Covers(q, q.ip);
    if p.len > q.len {
      FlipShows(q.ip, HostBits(p), HostBits(q));
      FlipShows(q.ip, HostBits(p), HostBits(p));
      assert Covers(q, Flip(q.ip, HostBits(p)));
    }
  }

  lemma ContainsTrans(p: Prefix, q: Prefix, r: Prefix)
    requires Valid(p) && Valid(q) && Valid(r) && Contains(p, q) && Contains(q, r)
    ensures Contains(p, r)
  {
    Coarsens(p, q, r.ip, q.ip);
  }

  // ---------------------------------------------------------------- deduplicateIP

  /** Element k gives way to element j: j is wider, or as wide and later. */
  ghost predicate Yields(list: seq<Prefix>, k: nat, j: nat)
    requires k < |list| && j < |list|
  {
    Contains(list[j], list[k]) && (list[j].len < list[k].len || k < j)
  }

  ghost predicate Survives(list: seq<Prefix>, k: nat)
    requires k < |list|
  {
    forall j :: 0 <= j < |list| ==> !Yields(list, k, j)
  }

  /** Every element is contained in one that survives. */
  lemma {:induction false} Survivor(list: seq<Prefix>, k: nat) returns (m: nat)
    requires k < |list| && forall i :: 0 <= i < |list| ==> Valid(list[i])
    ensures m < |list| && Survives(list, m) && Contains(list[m], list[k])
    decreases list[k].len, |list| - k
  {
    if Survives(list, k) {
      m := k;
    } else {
      var j :| 0 <= j < |list| && Yields(list, k, j);
      m := Survivor(list, j);
      ContainsTrans(list[m], list[j], list[k]);
    }
  }

  /** Pair (a, b) has been compared once the loops stand at (i, j). */
  ghost predicate Seen(a: int, b: int, i: int, j: int) {
    a < i || (a == i && b < j)
  }

  /** Element k was beaten in a comparison already made. */
  ghost predicate Beaten(list: seq<Prefix>, k: nat, i: int, j: int)
    requires k < |list|
  {
    exists a, b :: 0 <= a < b < |list| && Seen(a, b, i, j) && Overlap(list[a], list[b]) == Some(list[k])
  }

  lemma BeatenYields(list: seq<Prefix>, k: nat)
    requires k < |list| && Distinct(list)
    ensures Beaten(list, k, |list|, 0) <==> !Survives(list, k)
  {
    if Beaten(list, k, |list|, 0) {
      var a, b :| 0 <= a < b < |list| && Seen(a, b, |list|, 0) && Overlap(list[a], list[b]) == Some(list[k]);
      assert Yields(list, k, if k == a then b else a);
    }
    if !Survives(list, k) {
      var j :| 0 <= j < |list| && Yields(list, k, j);
      if k < j {
        assert Seen(k, j, |list|, 0) && Overlap(list[k], list[j]) == Some(list[k]);
      } else {
        assert k != j;
        assert Seen(j, k, |list|, 0) && Overlap(list[j], list[k]) == Some(list[k]);
      }
    }
  }

  /** The prefixes without repetitions, in order of first appearance. */
  method DropRepeats<T(==,!new)>(input: seq<T>) returns (list: seq<T>)
    ensures Distinct(list) && forall x :: x in list <==> x in input
    ensures |list| <= |input|
  {
    list := [];
    for i := 0 to |input|
      invariant Distinct(list) && |list| <= i && forall x :: x in list <==> x in input[..i]
    {
      if input[i] !in list {
        list := list + [input[i]];
      }
    }
    assert input[..|input|] == input;
  }

  /** The two nested loops: what is left after each pair has lost its narrower member. */
  method DropNarrower(list: seq<Prefix>) returns (existing: set<Prefix>)
    requires Distinct(list)
    ensures forall k :: 0 <= k < |list| ==> (list[k] in existing <==> Survives(list, k))
    ensures forall p :: p in existing ==> p in list
  {
    hide Beaten, Survives;
    existing := set p | p in list;
    NoneBeaten(list);
    for i := 0 to |list|
      invariant forall k :: 0 <= k < |list| ==> (list[k] in existing <==> !Beaten(list, k, i, 0))
      invariant forall p :: p in existing ==> p in list
    {
      existing := DropInRow(list, i, existing);
    }
    forall k | 0 <= k < |list| ensures list[k] in existing <==> Survives(list, k) {
      BeatenYields(list, k);
    }
  }

  method DropInRow(list: seq<Prefix>, i: nat, before: set<Prefix>) returns (existing: set<Prefix>)
    requires Distinct(list) && i < |list| && forall p :: p in before ==> p in list
    requires forall k :: 0 <= k < |list| ==> (list[k] in before <==> !Beaten(list, k, i, 0))
    ensures forall k :: 0 <= k < |list| ==> (list[k] in existing <==> !Beaten(list, k, i + 1, 0))
    ensures forall p :: p in existing ==> p in list
  {
    hide Beaten, Overlap;
    existing := before;
    forall k | 0 <= k < |list| ensures Beaten(list, k, i, 0) <==> Beaten(list, k, i, i + 1) {
      BeatenRow(list, k, i);
    }
    for j := i + 1 to |list|
      invariant forall k :: 0 <= k < |list| ==> (list[k] in existing <==> !Beaten(list, k, i, j))
      invariant forall p :: p in existing ==> p in list
    {
      forall k | 0 <= k < |list|
        ensures Beaten(list, k, i, j + 1) <==> Beaten(list, k, i, j) || Overlap(list[i], list[j]) == Some(list[k])
      {
        BeatenNext(list, k, i, j);
      }
      var smaller := Overlap(list[i], list[j]);
      if smaller.Some? {
        existing := existing - {smaller.value};
      }
    }
    forall k | 0 <= k < |list| ensures Beaten(list, k, i, |list|) <==> Beaten(list, k, i + 1, 0) {
      BeatenRow(list, k, i);
    }
  }

  lemma NoneBeaten(list: seq<Prefix>)
    ensures forall k :: 0 <= k < |list| ==> !Beaten(list, k, 0, 0)
  {
  }

  lemma BeatenRow(list: seq<Prefix>, k: nat, i: nat)
    requires k < |list| && i < |list|
    ensures Beaten(list, k, i, 0) <==> Beaten(list, k, i, i + 1)
    ensures Beaten(list, k, i, |list|) <==> Beaten(list, k, i + 1, 0)
  {
    forall a, b | 0 <= a < b < |list|
      ensures Seen(a, b, i, 0) <==> Seen(a, b, i, i + 1)
      ensures Seen(a, b, i, |list|) <==> Seen(a, b, i + 1, 0)
    {}
  }

  lemma BeatenNext(list: seq<Prefix>, k: nat, i: nat, j: nat)
    requires k < |list| && i < j < |list|
    ensures Beaten(list, k, i, j + 1) <==> Beaten(list, k, i, j) || Overlap(list[i], list[j]) == Some(list[k])
  {
    forall a, b | 0 <= a < b < |list|
      ensures Seen(a, b, i, j + 1) <==> Seen(a, b, i, j) || (a == i && b == j)
    {}
    if Overlap(list[i], list[j]) == Some(list[k]) {
      assert Seen(i, j, i, j + 1);
    }
  }

  method AsSequence<T(==,!new)>(s: set<T>) returns (q: seq<T>)
    ensures Distinct(q) && |q| == |s| && forall x :: x in q <==> x in s
  {
    q := [];
    var todo := s;
    while todo != {}
      invariant todo <= s && |q| + |todo| == |s|
      invariant Distinct(q) && forall x :: x in q <==> x in s - todo
      decreases todo
    {
      var x :| x in todo;
      assert x !in q;
      q := q + [x];
      todo := todo - {x};
    }
  }

  /** deduplicateIP. */
  method DeduplicateIP(input: seq<Prefix>) returns (output: seq<Prefix>)
    requires forall i :: 0 <= i < |input| ==> Valid(input[i])
    ensures forall a: nat :: CoveredBy(output, a) <==> CoveredBy(input, a)
    ensures forall i, j :: 0 <= i < |output| && 0 <= j < |output| && i != j ==> !Contains(output[i], output[j])
    ensures forall p :: p in output ==> p in input
    ensures input != [] ==> output != []
  {
    hide Survives, Contains;
    var list := DropRepeats(input);
    forall i | 0 <= i < |list| ensures Valid(list[i]) {
      assert list[i] in input;
    }
    var existing := DropNarrower(list);
    output := AsSequence(existing);
    Unrelated(list, output);
    SameCover(list, input, output);
  }

  ghost predicate IsReduced(list: seq<Prefix>, output: seq<Prefix>) {
    && Distinct(list) && Distinct(output) && (forall i :: 0 <= i < |list| ==> Valid(list[i]))
    && (forall p :: p in output ==> p in list)
    && (forall k :: 0 <= k < |list| ==> (list[k] in output <==> Survives(list, k)))
  }

  lemma Unrelated(list: seq<Prefix>, output: seq<Prefix>)
    requires IsReduced(list, output)
    ensures forall i, j :: 0 <= i < |output| && 0 <= j < |output| && i != j ==> !Contains(output[i], output[j])
  {
    forall i, j | 0 <= i < |output| && 0 <= j < |output| && i != j ensures !Contains(output[i], output[j]) {
      assert output[i] in list && output[j] in list;
      var a :| 0 <= a < |list| && list[a] == output[i];
      var b :| 0 <= b < |list| && list[b] == output[j];
      assert a != b;
      assert !Yields(list, b, a) && !Yields(list, a, b);
      if list[a].len == list[b].len {
        assert HostBits(list[a]) == HostBits(list[b]);
      }
    }
  }

  lemma SameCover(list: seq<Prefix>, input: seq<Prefix>, output: seq<Prefix>)
    requires IsReduced(list, output) && forall p :: p in list <==> p in input
    ensures forall a: nat :: CoveredBy(output, a) <==> CoveredBy(input, a)
    ensures input != [] ==> output != []
  {
    forall a: nat | CoveredBy(input, a) ensures CoveredBy(output, a) {
      var q :| q in input && Covers(q, a);
      var p := Keeper(list, output, q);
      ContainsIsSubset(p, q);
    }
    if input != [] {
      var p := Keeper(list, output, input[0]);
    }
  }

  lemma Keeper(list: seq<Prefix>, output: seq<Prefix>, q: Prefix) returns (p: Prefix)
    requires IsReduced(list, output) && q in list
    ensures p in output && Contains(p, q) && Valid(p) && Valid(q)
  {
    var k :| 0 <= k < |list| && list[k] == q;
    var m := Survivor(list, k);
    p := list[m];
  }
}
