/** Small shared types and facts about sequences and counting maps. */
module Basics {

  datatype Option<+T> = None | Some(value: T)

  datatype Result<+T, +E> = Return(value: T) | Throw(error: E)

  /** `a` is what remains of `b` after deleting some elements, order kept. */
  ghost predicate IsSubsequence<T>(a: seq<T>, b: seq<T>)
    decreases |b|
  {
    if a == [] then true
    else if b == [] then false
    else (a[|a| - 1] == b[|b| - 1] && IsSubsequence(a[..|a| - 1], b[..|b| - 1]))
         || IsSubsequence(a, b[..|b| - 1])
  }

  lemma SubsequenceSkip<T>(a: seq<T>, b: seq<T>, x: T)
    requires IsSubsequence(a, b)
    ensures IsSubsequence(a, b + [x])
  {
    assert (b + [x])[..|b|] == b;
  }

  lemma SubsequenceKeep<T>(a: seq<T>, b: seq<T>, x: T)
    requires IsSubsequence(a, b)
    ensures IsSubsequence(a + [x], b + [x])
  {
    assert (b + [x])[..|b|] == b && (a + [x])[..|a|] == a;
  }

  lemma SubsequenceGrow<T>(a: seq<T>, b: seq<T>)
    requires b != [] && IsSubsequence(a, b[..|b| - 1])
    ensures IsSubsequence(a, b) && IsSubsequence(a + [b[|b| - 1]], b)
  {
    var kept := a + [b[|b| - 1]];
    assert kept[..|a|] == a;
  }

  lemma {:induction false} SubsequenceSelf<T>(a: seq<T>)
    ensures IsSubsequence(a, a)
  {
    if a != [] {
      SubsequenceSelf(a[..|a| - 1]);
    }
  }

  lemma {:induction false} SubsequenceTail<T>(a: seq<T>, b: seq<T>, tail: seq<T>)
    requires IsSubsequence(a, b)
    ensures IsSubsequence(a + tail, b + tail)
  {
    if tail == [] {
      assert a + tail == a && b + tail == b;
    } else {
      var n := |tail| - 1;
      SubsequenceTail(a, b, tail[..n]);
      hide IsSubsequence;
      SubsequenceKeep(a + tail[..n], b + tail[..n], tail[n]);
      assert a + tail == a + tail[..n] + [tail[n]] && b + tail == b + tail[..n] + [tail[n]];
    }
  }

  /** `dict.get(key, 0)` on a counting dict. */
  function Get(counts: map<string, nat>, key: string): nat {
    if key in counts then counts[key] else 0
  }

  ghost predicate AllPositive(counts: map<string, nat>) {
    forall key :: key in counts ==> counts[key] > 0
  }

  /** `sum(counts.values())`. */
  ghost function Total(counts: map<string, nat>): nat
    decreases |counts|
  {
    if counts == map[] then 0
    else
      var key :| key in counts;
      assert |counts - {key}| < |counts| by { RemoveShrinks(counts, key); }
      counts[key] + Total(counts - {key})
  }

  lemma RemoveShrinks(counts: map<string, nat>, key: string)
    requires key in counts
    ensures |counts - {key}| == |counts| - 1
  {
    assert (counts - {key}).Keys == counts.Keys - {key};
  }

  /** The sum does not depend on the key taken out first. */
  lemma {:induction false} TotalTakeOut(counts: map<string, nat>, key: string)
    requires key in counts
    ensures Total(counts) == counts[key] + Total(counts - {key})
    decreases |counts|
  {
    var first :| first in counts && Total(counts) == counts[first] + Total(counts - {first});
    if first != key {
      RemoveShrinks(counts, first);
      RemoveShrinks(counts, key);
      TotalTakeOut(counts - {first}, key);
      TotalTakeOut(counts - {key}, first);
      assert counts - {first} - {key} == counts - {key} - {first};
    }
  }

  lemma TotalPut(counts: map<string, nat>, key: string, n: nat)
    ensures Total(counts[key := n]) + Get(counts, key) == Total(counts) + n
  {
    var rest := counts - {key};
    var put := counts[key := n];
    assert put - {key} == rest;
    TotalTakeOut(put, key);
    if key in counts {
      TotalTakeOut(counts, key);
    } else {
      assert rest == counts;
    }
  }

  lemma TotalRemove(counts: map<string, nat>, key: string)
    ensures Total(counts - {key}) + Get(counts, key) == Total(counts)
  {
    if key in counts {
      TotalTakeOut(counts, key);
    } else {
      assert counts - {key} == counts;
    }
  }

  /** How many elements satisfy `p`. */
  ghost function Count<T>(xs: seq<T>, p: T -> bool): nat {
    if xs == [] then 0
    else Count(xs[..|xs| - 1], p) + if p(xs[|xs| - 1]) then 1 else 0
  }

  lemma {:induction false} CountUpdate<T>(xs: seq<T>, p: T -> bool, i: nat, x: T)
    requires i < |xs|
    ensures Count(xs[i := x], p) + (if p(xs[i]) then 1 else 0)
         == Count(xs, p) + (if p(x) then 1 else 0)
  {
    var n := |xs| - 1;
    if i == n {
      assert xs[i := x][..n] == xs[..n];
    } else {
      assert xs[i := x][..n] == xs[..n][i := x];
      CountUpdate(xs[..n], p, i, x);
    }
  }

  lemma CountAppend<T>(xs: seq<T>, p: T -> bool, x: T)
    ensures Count(xs + [x], p) == Count(xs, p) + if p(x) then 1 else 0
  {
    assert (xs + [x])[..|xs|] == xs;
  }
}
