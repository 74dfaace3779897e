/** Facts about sets and strings used throughout. */
module Basics {

  lemma SubsetSize<T>(a: set<T>, b: set<T>)
    requires a <= b
    ensures |a| <= |b| && (|a| == |b| ==> a == b)
  {
    assert |a + (b - a)| == |a| + |b - a|;
    assert a + (b - a) == b;
  }

  /** Whatever comes before a separator that does not occur in it is as long as the separator allows. */
  lemma FirstSeparator(c: char, x: string, u: string, y: string, v: string)
    requires x + [c] + u == y + [c] + v && c !in y
    ensures |y| <= |x|
  {
    assert (x + [c] + u)[|x|] == c;
    assert forall i :: 0 <= i < |y| ==> (y + [c] + v)[i] == y[i] && y[i] in y;
  }

  /** Texts split at a separator that does not occur before it are equal in both parts. */
  lemma SplitAtSeparator(c: char, x: string, u: string, y: string, v: string)
    requires x + [c] + u == y + [c] + v && c !in x && c !in y
    ensures x == y && u == v
  {
    FirstSeparator(c, x, u, y, v);
    FirstSeparator(c, y, v, x, u);
    var s := x + [c] + u;
    assert x == s[..|x|] == y;
    assert u == s[|x| + 1..] == v;
  }

  lemma {:induction false} LongestText(used: set<string>) returns (n: nat)
    ensures forall s :: s in used ==> |s| <= n
    decreases |used|
  {
    n := 0;
    if used != {} {
      var s :| s in used;
      n := LongestText(used - {s});
      n := if |s| > n then |s| else n;
    }
  }

  /** There is always another name, free of separators. */
  lemma FreshText(used: set<string>) returns (v: string)
    ensures v !in used && v != "" && ':' !in v
  {
    var n := LongestText(used);
    v := seq(n + 1, _ => 'x');
  }

  ghost predicate Distinct<T>(s: seq<T>) {
    forall i, j :: 0 <= i < j < |s| ==> s[i] != s[j]
  }

  lemma DistinctNext<T>(s: seq<T>, x: T)
    ensures Distinct(s + [x]) <==> Distinct(s) && x !in s
  {
    var t := s + [x];
    if Distinct(t) {
      forall i, j | 0 <= i < j < |s| ensures s[i] != s[j] {
        assert t[i] != t[j];
      }
      forall i | 0 <= i < |s| ensures s[i] != x {
        assert t[i] != t[|s|];
      }
    }
  }

  lemma {:induction false} DistinctOnce<T>(s: seq<T>)
    requires Distinct(s)
    ensures forall x :: multiset(s)[x] <= 1
  {
    if s != [] {
      var front, last := s[..|s| - 1], s[|s| - 1];
      assert s == front + [last];
      DistinctOnce(front);
      assert last !in front;
    }
  }

  /** Lists without repetition that have the same elements are permutations of each other. */
  lemma DistinctPermutation<T>(s: seq<T>, t: seq<T>)
    requires Distinct(s) && Distinct(t) && forall x :: x in s <==> x in t
    ensures multiset(s) == multiset(t)
  {
    DistinctOnce(s);
    DistinctOnce(t);
    forall x ensures multiset(s)[x] == multiset(t)[x] {
      assert x in s <==> multiset(s)[x] > 0;
      assert x in t <==> multiset(t)[x] > 0;
    }
  }

  lemma SameMembers<T>(s: seq<T>, t: seq<T>)
    requires multiset(s) == multiset(t)
    ensures |s| == |t| && forall x :: x in s <==> x in t
  {
    assert |multiset(s)| == |s| && |multiset(t)| == |t|;
    forall x ensures x in s <==> x in t {
      assert x in s <==> x in multiset(s);
      assert x in t <==> x in multiset(t);
    }
  }

  lemma StrangeMember<T>(s: seq<T>, t: seq<T>, x: T)
    requires x in t && x !in s
    ensures multiset(s) != multiset(t)
  {
    assert x in multiset(t) && x !in multiset(s);
  }

  /** A permutation of a list without repetition has none. */
  lemma PermutationDistinct<T>(s: seq<T>, t: seq<T>)
    requires Distinct(s) && multiset(s) == multiset(t)
    ensures Distinct(t)
  {
    DistinctOnce(s);
    forall i, j | 0 <= i < j < |t| ensures t[i] != t[j] {
      TwiceCounts(t, i, j);
    }
  }

  lemma TwiceCounts<T>(t: seq<T>, i: nat, j: nat)
    requires i < j < |t|
    ensures t[i] == t[j] ==> multiset(t)[t[i]] >= 2
  {
    assert t == t[..i] + [t[i]] + t[i + 1..j] + [t[j]] + t[j + 1..];
  }
}
