/** Sequence operations the screens use on fetched rows: `Array.filter`,
    `Array.find`, `slice(0, n)` and the ordering a query or `Array.sort`
    imposes, each with the facts the rest of the model relies on. */
module Seqs {

  import opened Types

  /** `xs` keeps a subset of the elements of `ys`, in their original order:
      each element of `ys` is either matched by the head of `xs` or skipped. */
  ghost predicate IsSubsequence<T>(xs: seq<T>, ys: seq<T>)
    decreases |ys|
  {
    if |ys| == 0 then |xs| == 0
    else
      || (|xs| > 0 && xs[0] == ys[0] && IsSubsequence(xs[1..], ys[1..]))
      || IsSubsequence(xs, ys[1..])
  }

  /** `Array.prototype.filter`. */
  function Filter<T>(s: seq<T>, p: T -> bool): (r: seq<T>)
    ensures |r| <= |s|
    ensures forall x :: x in r ==> x in s && p(x)
    ensures forall x :: x in s && p(x) ==> x in r
  {
    if |s| == 0 then []
    else
      assert s == [s[0]] + s[1..];
      if p(s[0]) then [s[0]] + Filter(s[1..], p)
      else Filter(s[1..], p)
  }

  /** Filtering never duplicates an element. */
  lemma {:induction false} FilterMultiset<T>(s: seq<T>, p: T -> bool)
    ensures multiset(Filter(s, p)) <= multiset(s)
  {
    if |s| > 0 {
      FilterMultiset(s[1..], p);
      assert s == [s[0]] + s[1..];
    }
  }

  lemma {:induction false} FilterIsSubsequence<T>(s: seq<T>, p: T -> bool)
    ensures IsSubsequence(Filter(s, p), s)
  {
    if |s| > 0 {
      FilterIsSubsequence(s[1..], p);
      if p(s[0]) {
        assert Filter(s, p)[1..] == Filter(s[1..], p);
      }
    }
  }

  /** Filtering a sequence whose every element passes returns it unchanged. */
  lemma {:induction false} FilterKeepsAll<T>(s: seq<T>, p: T -> bool)
    requires forall i :: 0 <= i < |s| ==> p(s[i])
    ensures Filter(s, p) == s
  {
    if |s| > 0 {
      FilterKeepsAll(s[1..], p);
    }
  }

  /** Filtering again with the same predicate changes nothing. */
  lemma FilterIdempotent<T>(s: seq<T>, p: T -> bool)
    ensures Filter(Filter(s, p), p) == Filter(s, p)
  {
    var r := Filter(s, p);
    assert forall i :: 0 <= i < |r| ==> r[i] in r;
    FilterKeepsAll(r, p);
  }

  /** A predicate that passes nothing filters everything out. */
  lemma {:induction false} FilterKeepsNone<T>(s: seq<T>, p: T -> bool)
    requires forall i :: 0 <= i < |s| ==> !p(s[i])
    ensures Filter(s, p) == []
  {
    if |s| > 0 {
      FilterKeepsNone(s[1..], p);
    }
  }

  /** Filtering distributes over concatenation. */
  lemma {:induction false} FilterAppend<T>(a: seq<T>, b: seq<T>, p: T -> bool)
    ensures Filter(a + b, p) == Filter(a, p) + Filter(b, p)
  {
    if |a| == 0 {
      assert a + b == b;
    } else {
      assert (a + b)[1..] == a[1..] + b;
      FilterAppend(a[1..], b, p);
    }
  }

  /** Two predicates that agree everywhere filter alike. */
  lemma {:induction false} FilterSamePredicate<T>(s: seq<T>, p: T -> bool, q: T -> bool)
    requires forall x :: p(x) == q(x)
    ensures Filter(s, p) == Filter(s, q)
  {
    if |s| > 0 {
      FilterSamePredicate(s[1..], p, q);
    }
  }

  /** Filtering twice is filtering once with the conjunction. */
  lemma {:induction false} FilterFuse<T>(s: seq<T>, p: T -> bool, q: T -> bool, pq: T -> bool)
    requires forall x :: pq(x) == (p(x) && q(x))
    ensures Filter(Filter(s, p), q) == Filter(s, pq)
  {
    if |s| > 0 {
      FilterFuse(s[1..], p, q, pq);
      if p(s[0]) {
        assert Filter(s, p)[1..] == Filter(s[1..], p);
      }
    }
  }

  /** One step of the filter: the head is kept exactly when it passes. */
  lemma FilterStep<T>(s: seq<T>, p: T -> bool)
    requires |s| > 0
    ensures Filter(s, p) == (if p(s[0]) then [s[0]] else []) + Filter(s[1..], p)
  {}

  /** Filtering three elements, spelled out. */
  lemma FilterOfThree<T>(s: seq<T>, p: T -> bool)
    requires |s| == 3
    ensures Filter(s, p) ==
      (if p(s[0]) then [s[0]] else []) + (if p(s[1]) then [s[1]] else []) + (if p(s[2]) then [s[2]] else [])
  {
    var t := s[1..];
    var u := t[1..];
    var a: seq<T> := if p(s[0]) then [s[0]] else [];
    var b: seq<T> := if p(s[1]) then [s[1]] else [];
    var c: seq<T> := if p(s[2]) then [s[2]] else [];
    assert u[1..] == [];
    assert Filter(u, p) == c by { FilterStep(u, p); }
    assert Filter(t, p) == b + c by { FilterStep(t, p); }
    FilterStep(s, p);
    ConcatAssoc(a, b, c);
  }

  lemma ConcatAssoc<T>(a: seq<T>, b: seq<T>, c: seq<T>)
    ensures a + (b + c) == a + b + c
  {}

  /** Counting with a weaker predicate never finds fewer elements. */
  lemma {:induction false} CountMonotone<T>(s: seq<T>, p: T -> bool, q: T -> bool)
    requires forall x :: p(x) ==> q(x)
    ensures |Filter(s, p)| <= |Filter(s, q)|
  {
    if |s| > 0 {
      CountMonotone(s[1..], p, q);
    }
  }

  /** When `p` holds exactly when one of the disjoint `q`, `r` holds, the
      count for `p` is the sum of the other two counts. */
  lemma {:induction false} CountSplit<T>(s: seq<T>, p: T -> bool, q: T -> bool, r: T -> bool)
    requires forall x :: p(x) <==> q(x) || r(x)
    requires forall x :: !(q(x) && r(x))
    ensures |Filter(s, p)| == |Filter(s, q)| + |Filter(s, r)|
  {
    if |s| > 0 {
      CountSplit(s[1..], p, q, r);
    }
  }

  /** Three pairwise disjoint predicates count at most the whole sequence. */
  lemma {:induction false} CountDisjoint3<T>(s: seq<T>, p: T -> bool, q: T -> bool, r: T -> bool)
    requires forall x :: !(p(x) && q(x)) && !(p(x) && r(x)) && !(q(x) && r(x))
    ensures |Filter(s, p)| + |Filter(s, q)| + |Filter(s, r)| <= |s|
  {
    if |s| > 0 {
      CountDisjoint3(s[1..], p, q, r);
    }
  }

  /** Three predicates of which every element meets exactly one partition
      the sequence: their counts add up to its length. */
  lemma {:induction false} CountPartition3<T>(s: seq<T>, p: T -> bool, q: T -> bool, r: T -> bool)
    requires forall x :: p(x) || q(x) || r(x)
    requires forall x :: !(p(x) && q(x)) && !(p(x) && r(x)) && !(q(x) && r(x))
    ensures |Filter(s, p)| + |Filter(s, q)| + |Filter(s, r)| == |s|
  {
    if |s| > 0 {
      CountPartition3(s[1..], p, q, r);
    }
  }

  /** Changing one position changes the count by what that position
      contributes before and after. */
  lemma {:induction false} CountUpdateAt<T>(a: seq<T>, b: seq<T>, k: nat, p: T -> bool)
    requires |a| == |b| && k < |a|
    requires forall i :: 0 <= i < |a| && i != k ==> a[i] == b[i]
    ensures |Filter(b, p)| + (if p(a[k]) then 1 else 0) == |Filter(a, p)| + (if p(b[k]) then 1 else 0)
  {
    CountHead(a, p);
    CountHead(b, p);
    if k == 0 {
      assert a[1..] == b[1..];
    } else {
      var a', b' := a[1..], b[1..];
      assert a[0] == b[0];
      assert forall i :: 0 <= i < |a'| && i != k - 1 ==> a'[i] == b'[i] by {
        forall i | 0 <= i < |a'| && i != k - 1 ensures a'[i] == b'[i] {
          assert a'[i] == a[i + 1] && b'[i] == b[i + 1];
        }
      }
      CountUpdateAt(a', b', k - 1, p);
    }
  }

  /** The count of a non-empty sequence: the head's share plus the rest's. */
  lemma CountHead<T>(s: seq<T>, p: T -> bool)
    requires |s| > 0
    ensures |Filter(s, p)| == (if p(s[0]) then 1 else 0) + |Filter(s[1..], p)|
  {
    FilterStep(s, p);
  }

  /** `Array.prototype.find`: the first element that passes, if any. */
  function FindFirst<T>(s: seq<T>, p: T -> bool): (r: Option<T>)
    ensures r.Some? ==> r.value in s && p(r.value)
    ensures r.None? ==> forall i :: 0 <= i < |s| ==> !p(s[i])
    ensures r.Some? ==> exists k :: 0 <= k < |s| && s[k] == r.value && forall i :: 0 <= i < k ==> !p(s[i])
  {
    if |s| == 0 then None
    else if p(s[0]) then Some(s[0])
    else
      var r := FindFirst(s[1..], p);
      assert r.Some? ==> exists k :: 0 < k < |s| && s[k] == r.value && forall i :: 0 <= i < k ==> !p(s[i]) by {
        if r.Some? {
          var k :| 0 <= k < |s[1..]| && s[1..][k] == r.value && forall i :: 0 <= i < k ==> !p(s[1..][i]);
          assert s[k + 1] == r.value;
          assert forall i :: 0 <= i < k + 1 ==> !p(s[i]) by {
            forall i | 0 <= i < k + 1 ensures !p(s[i]) {
              if i > 0 { assert s[i] == s[1..][i - 1]; }
            }
          }
        }
      }
      r
  }

  /** `slice(0, n)`. */
  function Take<T>(s: seq<T>, n: nat): (r: seq<T>)
    ensures |r| == if |s| < n then |s| else n
    ensures forall i :: 0 <= i < |r| ==> r[i] == s[i]
  {
    if |s| <= n then s else s[..n]
  }

  // ------------------------------------------------------------- ordering

  /** `s` is ordered by ascending `key`. */
  ghost predicate SortedBy<T>(s: seq<T>, key: T -> int) {
    forall i, j :: 0 <= i < j < |s| ==> key(s[i]) <= key(s[j])
  }

  function Insert<T>(x: T, s: seq<T>, key: T -> int): (r: seq<T>)
    requires SortedBy(s, key)
    ensures SortedBy(r, key)
    ensures multiset(r) == multiset(s) + multiset{x}
    ensures |r| == |s| + 1
    ensures r[0] == x || (|s| > 0 && r[0] == s[0])
  {
    if |s| == 0 then [x]
    else if key(x) <= key(s[0]) then [x] + s
    else
      var rest := Insert(x, s[1..], key);
      assert s == [s[0]] + s[1..];
      assert key(s[0]) <= key(rest[0]);
      [s[0]] + rest
  }

  /** The order a query's `.order(...)` or a comparator `sort` produces,
      as an ascending sort on an integer key. */
  function SortBy<T>(s: seq<T>, key: T -> int): (r: seq<T>)
    ensures SortedBy(r, key)
    ensures multiset(r) == multiset(s)
    ensures |r| == |s|
  {
    if |s| == 0 then []
    else
      assert s == [s[0]] + s[1..];
      Insert(s[0], SortBy(s[1..], key), key)
  }

  /** Sorting keeps exactly the elements it was given. */
  lemma SortByMembers<T>(s: seq<T>, key: T -> int)
    ensures forall x :: x in SortBy(s, key) <==> x in s
  {
    var r := SortBy(s, key);
    assert forall x :: x in r <==> x in multiset(r);
    assert forall x :: x in s <==> x in multiset(s);
  }
}
