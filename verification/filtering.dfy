/** The order-preserving sequence filter that the task store uses both for
    its filtered views and for deletion (JavaScript's `Array.prototype.filter`). */
module Filtering {

  /** The elements of `s` that satisfy `keep`, in their original order. */
  function Filter<T>(s: seq<T>, keep: T -> bool): (r: seq<T>)
    ensures |r| <= |s|
  {
    if |s| == 0 then []
    else (if keep(s[0]) then [s[0]] else []) + Filter(s[1..], keep)
  }

  /** The filter's result holds only satisfying elements of the input, and
      every satisfying element of the input. */
  lemma {:induction false} FilterMembers<T>(s: seq<T>, keep: T -> bool)
    ensures forall i :: 0 <= i < |Filter(s, keep)| ==> Filter(s, keep)[i] in s && keep(Filter(s, keep)[i])
    ensures forall i :: 0 <= i < |s| && keep(s[i]) ==> s[i] in Filter(s, keep)
  {
    if |s| > 0 {
      FilterMembers(s[1..], keep);
      assert s == [s[0]] + s[1..];
    }
  }

  /** The predicate that holds exactly where `keep` does not. */
  function Negate<T>(keep: T -> bool): T -> bool {
    x => !keep(x)
  }

  /** The indices `i >= lo` of `s` whose element satisfies `keep`, ascending:
      an independent description of which elements a filter selects. */
  function Positions<T>(s: seq<T>, keep: T -> bool, lo: nat): (p: seq<nat>)
    requires lo <= |s|
    ensures forall k :: 0 <= k < |p| ==> lo <= p[k] < |s| && keep(s[p[k]])
    ensures forall k, l :: 0 <= k < l < |p| ==> p[k] < p[l]
    ensures forall i :: lo <= i < |s| && keep(s[i]) ==> i in p
    decreases |s| - lo
  {
    if lo == |s| then []
    else if keep(s[lo]) then [lo] + Positions(s, keep, lo + 1)
    else Positions(s, keep, lo + 1)
  }

  /** Filtering the suffix from `lo` picks exactly the elements at the kept
      positions, in ascending position order: the result is the subsequence
      of kept elements, nothing reordered, nothing skipped. */
  lemma {:induction false} FilterFollowsPositions<T>(s: seq<T>, keep: T -> bool, lo: nat)
    requires lo <= |s|
    ensures |Filter(s[lo..], keep)| == |Positions(s, keep, lo)|
    ensures forall k :: 0 <= k < |Positions(s, keep, lo)| ==>
              Filter(s[lo..], keep)[k] == s[Positions(s, keep, lo)[k]]
    decreases |s| - lo
  {
    if lo < |s| {
      FilterFollowsPositions(s, keep, lo + 1);
      var f, p := Filter(s[lo..], keep), Positions(s, keep, lo);
      var f', p' := Filter(s[lo + 1..], keep), Positions(s, keep, lo + 1);
      assert f == (if keep(s[lo]) then [s[lo]] else []) + f' by {
        assert s[lo..][0] == s[lo];
        assert s[lo..][1..] == s[lo + 1..];
      }
      if keep(s[lo]) {
        assert p == [lo] + p';
        forall k | 0 <= k < |p|
          ensures f[k] == s[p[k]]
        {
          if k > 0 {
            assert f[k] == f'[k - 1] && p[k] == p'[k - 1];
          }
        }
      }
    }
  }

  /** A filter whose predicate holds of every element returns its input. */
  lemma {:induction false} FilterKeepsAll<T>(s: seq<T>, keep: T -> bool)
    requires forall i :: 0 <= i < |s| ==> keep(s[i])
    ensures Filter(s, keep) == s
  {
    if |s| > 0 {
      FilterKeepsAll(s[1..], keep);
      assert s == [s[0]] + s[1..];
    }
  }

  /** Filtering distributes over concatenation. */
  lemma {:induction false} FilterAppend<T>(a: seq<T>, b: seq<T>, keep: T -> bool)
    ensures Filter(a + b, keep) == Filter(a, keep) + Filter(b, keep)
  {
    if |a| == 0 {
      assert a + b == b;
    } else {
      var head := if keep(a[0]) then [a[0]] else [];
      calc {
        Filter(a + b, keep);
        { assert (a + b)[0] == a[0]; assert (a + b)[1..] == a[1..] + b; }
        head + Filter(a[1..] + b, keep);
        { FilterAppend(a[1..], b, keep); }
        head + (Filter(a[1..], keep) + Filter(b, keep));
        Filter(a, keep) + Filter(b, keep);
      }
    }
  }

  /** A predicate and its negation split a sequence: every element lands in
      exactly one of the two filtered sequences, with its multiplicity. */
  lemma {:induction false} FilterPartition<T>(s: seq<T>, keep: T -> bool)
    ensures multiset(Filter(s, keep)) + multiset(Filter(s, Negate(keep))) == multiset(s)
    ensures |Filter(s, keep)| + |Filter(s, Negate(keep))| == |s|
  {
    if |s| > 0 {
      FilterPartition(s[1..], keep);
      assert s == [s[0]] + s[1..];
      assert Filter(s, keep) == (if keep(s[0]) then [s[0]] else []) + Filter(s[1..], keep);
      assert Filter(s, Negate(keep)) == (if Negate(keep)(s[0]) then [s[0]] else []) + Filter(s[1..], Negate(keep));
    }
  }

  /** `r` consists of the elements of `s` at some ascending run of indices,
      and those indices are exactly the ones whose element satisfies `keep`. */
  ghost predicate SelectsInOrder<T>(r: seq<T>, s: seq<T>, keep: T -> bool) {
    exists p: seq<nat> ::
      && |p| == |r|
      && (forall k :: 0 <= k < |p| ==> p[k] < |s| && r[k] == s[p[k]])
      && (forall k, l :: 0 <= k < l < |p| ==> p[k] < p[l])
      && (forall i :: 0 <= i < |s| ==> (keep(s[i]) <==> i in p))
  }

  /** The filter returns exactly the satisfying elements in their original order. */
  lemma FilterSelectsInOrder<T>(s: seq<T>, keep: T -> bool)
    ensures SelectsInOrder(Filter(s, keep), s, keep)
  {
    var r, p := Filter(s, keep), Positions(s, keep, 0);
    FilterAtPositions(s, keep);
    PositionsExact(s, keep);
    assert |p| == |r|;
  }

  /** `FilterFollowsPositions` for the whole sequence. */
  lemma FilterAtPositions<T>(s: seq<T>, keep: T -> bool)
    ensures |Filter(s, keep)| == |Positions(s, keep, 0)|
    ensures forall k :: 0 <= k < |Positions(s, keep, 0)| ==>
              Filter(s, keep)[k] == s[Positions(s, keep, 0)[k]]
  {
    FilterFollowsPositions(s, keep, 0);
    assert s[0..] == s;
  }

  /** The positions from 0 are exactly the satisfying indices. */
  lemma PositionsExact<T>(s: seq<T>, keep: T -> bool)
    ensures forall i :: 0 <= i < |s| ==> (keep(s[i]) <==> i in Positions(s, keep, 0))
  {
  }

  /** Predicates that agree on every element of `s` filter it alike. */
  lemma {:induction false} FilterAgrees<T>(s: seq<T>, keep: T -> bool, keep': T -> bool)
    requires forall i :: 0 <= i < |s| ==> keep(s[i]) == keep'(s[i])
    ensures Filter(s, keep) == Filter(s, keep')
  {
    if |s| > 0 {
      FilterAgrees(s[1..], keep, keep');
    }
  }

  /** When `keep` fails at index `i` and holds everywhere else, the filter
      drops exactly the element at `i`. */
  lemma {:induction false} FilterDropsOne<T>(s: seq<T>, i: nat, keep: T -> bool)
    requires i < |s| && !keep(s[i])
    requires forall j :: 0 <= j < |s| && j != i ==> keep(s[j])
    ensures Filter(s, keep) == s[..i] + s[i + 1..]
  {
    var tail := s[1..];
    if i == 0 {
      assert forall k :: 0 <= k < |tail| ==> tail[k] == s[k + 1];
      FilterKeepsAll(tail, keep);
      assert s[..0] + s[1..] == tail;
    } else {
      assert forall k :: 0 <= k < |tail| ==> tail[k] == s[k + 1];
      FilterDropsOne(tail, i - 1, keep);
      assert s[..i] == [s[0]] + tail[..i - 1];
      assert s[i + 1..] == tail[i..];
    }
  }
}
