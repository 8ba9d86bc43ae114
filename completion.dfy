// What the worker pools of the scripts guarantee about the order their
// results complete in: every task submitted completes once, in some order.
// The runs take that order as an input; these definitions state that it is a
// rearrangement of what was submitted, and what survives a rearrangement.
module Completion {

  /** The keys of results given with their keys, in the same order. */
  function Keys<K, V>(results: seq<(K, V)>): (r: seq<K>)
    ensures |r| == |results|
    ensures forall i :: 0 <= i < |r| ==> r[i] == results[i].0
  {
    seq(|results|, i requires 0 <= i < |results| => results[i].0)
  }

  /** How many elements of `xs` satisfy `p`. */
  function Count<K>(xs: seq<K>, p: K -> bool): (n: nat)
    ensures n <= |xs|
  {
    if xs == [] then 0 else (if p(xs[0]) then 1 else 0) + Count(xs[1..], p)
  }

  /** `results` completes each submitted task once: its keys are a rearrangement of `submitted`. */
  predicate CompletesOnce<K, V>(results: seq<(K, V)>, submitted: multiset<K>)
  {
    multiset(Keys(results)) == submitted
  }

  /** Counting over two parts is counting over each. */
  lemma {:induction false} CountAppend<K>(xs: seq<K>, ys: seq<K>, p: K -> bool)
    ensures Count(xs + ys, p) == Count(xs, p) + Count(ys, p)
  {
    if xs == [] {
      assert xs + ys == ys;
    } else {
      assert (xs + ys)[1..] == xs[1..] + ys;
      CountAppend(xs[1..], ys, p);
    }
  }

  /** A rearrangement counts the same, whatever is counted. */
  lemma {:induction false} CountRearranged<K>(xs: seq<K>, ys: seq<K>, p: K -> bool)
    requires multiset(xs) == multiset(ys)
    ensures Count(xs, p) == Count(ys, p)
    decreases |xs|
  {
    if xs == [] {
      assert |ys| == |multiset(ys)| == 0;
      assert ys == [];
    } else {
      var x := xs[0];
      assert x in multiset(xs);
      assert x in ys;
      var j :| 0 <= j < |ys| && ys[j] == x;
      var rest := ys[..j] + ys[j + 1..];
      CountRemove(ys, j, p);
      assert xs == [x] + xs[1..];
      assert multiset(xs[1..]) == multiset(xs) - multiset{x};
      CountRearranged(xs[1..], rest, p);
    }
  }

  /** Taking one element out of a sequence takes it out of its multiset and of its count. */
  lemma CountRemove<K>(ys: seq<K>, j: nat, p: K -> bool)
    requires j < |ys|
    ensures multiset(ys[..j] + ys[j + 1..]) == multiset(ys) - multiset{ys[j]}
    ensures Count(ys, p) == Count(ys[..j] + ys[j + 1..], p) + (if p(ys[j]) then 1 else 0)
  {
    RemoveSplit(ys, j);
    var front, back := ys[..j], ys[j + 1..];
    CountAppend(front, [ys[j]] + back, p);
    CountAppend([ys[j]], back, p);
    CountAppend(front, back, p);
    assert ([ys[j]] + back)[1..] == back;
  }

  /** A sequence is what comes before index `j`, the element at `j`, and what comes after. */
  lemma RemoveSplit<K>(ys: seq<K>, j: nat)
    requires j < |ys|
    ensures ys == ys[..j] + ([ys[j]] + ys[j + 1..])
    ensures multiset(ys[..j] + ys[j + 1..]) == multiset(ys) - multiset{ys[j]}
  {
    var front, back := ys[..j], ys[j + 1..];
    assert ys == front + ([ys[j]] + back);
    calc {
      multiset(ys);
      multiset(front) + multiset([ys[j]] + back);
      multiset(front) + multiset{ys[j]} + multiset(back);
      multiset(front + back) + multiset{ys[j]};
    }
  }

  /** Every element satisfies `p`: all are counted. */
  lemma {:induction false} CountAll<K>(xs: seq<K>, p: K -> bool)
    requires forall i :: 0 <= i < |xs| ==> p(xs[i])
    ensures Count(xs, p) == |xs|
  {
    if xs != [] {
      CountAll(xs[1..], p);
    }
  }

  /** No element satisfies `p`: none is counted. */
  lemma {:induction false} CountNone<K>(xs: seq<K>, p: K -> bool)
    requires forall i :: 0 <= i < |xs| ==> !p(xs[i])
    ensures Count(xs, p) == 0
  {
    if xs != [] {
      CountNone(xs[1..], p);
    }
  }

  /** Results that complete each task of a set once are as many as the set's members. */
  lemma CompletesSet<K, V>(results: seq<(K, V)>, submitted: set<K>)
    requires CompletesOnce(results, multiset(submitted))
    ensures |results| == |submitted|
  {
    SetMultisetSize(submitted);
    assert |results| == |Keys(results)| == |multiset(Keys(results))|;
  }

  lemma {:induction false} SetMultisetSize<K>(s: set<K>)
    ensures |multiset(s)| == |s|
    decreases |s|
  {
    if s != {} {
      var x :| x in s;
      SetMultisetSize(s - {x});
      assert multiset(s) == multiset(s - {x}) + multiset{x};
    }
  }
}
