/**
 * Order-preserving filtering of sequences, as `Array.prototype.filter` does
 * it, and picking from sets.
 */
module Seqs {

  /** A set is empty or has an element: what picking one with `:|` needs. */
  lemma EmptyOrElement(s: set<int>)
    ensures s == {} || exists x :: x in s
  {
    if forall x :: x !in s {
      assert s == {};
    }
  }

  /** The elements of `xs` that `keep` accepts, in their original order. */
  function Filter<T>(xs: seq<T>, keep: T -> bool): seq<T>
    decreases |xs|
  {
    if |xs| == 0 then []
    else Filter(xs[..|xs| - 1], keep) + (if keep(xs[|xs| - 1]) then [xs[|xs| - 1]] else [])
  }

  lemma FilterSnoc<T>(xs: seq<T>, x: T, keep: T -> bool)
    ensures Filter(xs + [x], keep) == Filter(xs, keep) + (if keep(x) then [x] else [])
  {
    assert (xs + [x])[..|xs|] == xs;
  }

  /**
   * Every element occurs in the filtered sequence exactly as often as in the
   * original when `keep` accepts it, and not at all otherwise.
   */
  lemma FilterCountStep<T>(xs: seq<T>, keep: T -> bool)
    requires |xs| > 0
    ensures |Filter(xs, keep)| == |Filter(xs[..|xs| - 1], keep)| + (if keep(xs[|xs| - 1]) then 1 else 0)
  {
  }

  lemma {:induction false} FilterCount<T>(xs: seq<T>, keep: T -> bool, x: T)
    ensures multiset(Filter(xs, keep))[x] == if keep(x) then multiset(xs)[x] else 0
    decreases |xs|
  {
    if |xs| > 0 {
      var init := xs[..|xs| - 1];
      FilterCount(init, keep, x);
      assert xs == init + [xs[|xs| - 1]];
    }
  }

  lemma FilterMember<T>(xs: seq<T>, keep: T -> bool, x: T)
    ensures x in Filter(xs, keep) <==> x in xs && keep(x)
  {
    FilterCount(xs, keep, x);
  }

  lemma {:induction false} FilterLength<T>(xs: seq<T>, keep: T -> bool)
    ensures |Filter(xs, keep)| <= |xs|
    decreases |xs|
  {
    if |xs| > 0 {
      FilterLength(xs[..|xs| - 1], keep);
    }
  }

  /** The sequence without its element at `r`: what comes before it, then what comes after it. */
  function RemoveAt<T>(t: seq<T>, r: nat): seq<T>
    requires r < |t|
  {
    t[..r] + t[r + 1..]
  }

  lemma RemoveAtIndex<T>(t: seq<T>, r: nat)
    requires r < |t|
    ensures |RemoveAt(t, r)| == |t| - 1
    ensures forall k :: 0 <= k < |t| - 1 ==> RemoveAt(t, r)[k] == t[if k < r then k else k + 1]
  {
  }

  /** Every element left after removing the one at `r` sits at another index of `t`. */
  lemma RemoveAtElements<T>(t: seq<T>, r: nat, x: T)
    requires r < |t|
    ensures x in RemoveAt(t, r) <==> exists k :: 0 <= k < |t| && k != r && t[k] == x
  {
    RemoveAtIndex(t, r);
    var u := RemoveAt(t, r);
    if x in u {
      var k :| 0 <= k < |u| && u[k] == x;
      var k' := if k < r then k else k + 1;
      assert t[k'] == x;
    }
    if exists k :: 0 <= k < |t| && k != r && t[k] == x {
      var k :| 0 <= k < |t| && k != r && t[k] == x;
      var k' := if k < r then k else k - 1;
      assert u[k'] == x;
    }
  }
}
