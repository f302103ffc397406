/**
 * Order-preserving selection of the elements of a sequence: by a predicate
 * (`Filter`), and by a boolean mask of the same length (`Masked`, which is
 * what `DataFrame.loc[mask]` followed by `reset_index` does to the rows).
 */
module Filtering {

  /** The elements of `s` that satisfy `keep`, in their original order. */
  function Filter<T>(s: seq<T>, keep: T -> bool): (r: seq<T>)
    ensures |r| <= |s|
    ensures forall x :: x in r ==> x in s && keep(x)
  {
    if s == [] then []
    else
      var init := Filter(s[..|s| - 1], keep);
      if keep(s[|s| - 1]) then init + [s[|s| - 1]] else init
  }

  /** The positions in `s` of the elements that satisfy `keep`, ascending. */
  function KeptIndices<T>(s: seq<T>, keep: T -> bool): seq<nat>
  {
    if s == [] then []
    else
      var init := KeptIndices(s[..|s| - 1], keep);
      if keep(s[|s| - 1]) then init + [|s| - 1] else init
  }

  /** The elements of `s` whose position is marked `true` in `mask`. */
  function Masked<T>(s: seq<T>, mask: seq<bool>): seq<T>
    requires |mask| == |s|
  {
    if s == [] then []
    else
      var init := Masked(s[..|s| - 1], mask[..|s| - 1]);
      if mask[|s| - 1] then init + [s[|s| - 1]] else init
  }

  /** `Filter` takes its i-th element from position `KeptIndices(s, keep)[i]`. */
  lemma {:induction false} FilterAtIndices<T>(s: seq<T>, keep: T -> bool)
    ensures |KeptIndices(s, keep)| == |Filter(s, keep)|
    ensures forall i :: 0 <= i < |KeptIndices(s, keep)| ==>
              KeptIndices(s, keep)[i] < |s| && Filter(s, keep)[i] == s[KeptIndices(s, keep)[i]]
  {
    if s != [] {
      var init := s[..|s| - 1];
      FilterAtIndices(init, keep);
      assert forall i :: 0 <= i < |init| ==> init[i] == s[i];
    }
  }

  /** The kept positions are strictly increasing, so the order is preserved. */
  lemma {:induction false} KeptIndicesIncreasing<T>(s: seq<T>, keep: T -> bool)
    ensures forall i :: 0 <= i < |KeptIndices(s, keep)| ==> KeptIndices(s, keep)[i] < |s|
    ensures forall i, j :: 0 <= i < j < |KeptIndices(s, keep)| ==>
              KeptIndices(s, keep)[i] < KeptIndices(s, keep)[j]
  {
    if s != [] {
      KeptIndicesIncreasing(s[..|s| - 1], keep);
    }
  }

  /** A position is kept exactly when its element satisfies `keep`. */
  lemma {:induction false} KeptIndicesExact<T>(s: seq<T>, keep: T -> bool)
    ensures forall j :: 0 <= j < |s| ==> (j in KeptIndices(s, keep) <==> keep(s[j]))
  {
    if s != [] {
      var init := s[..|s| - 1];
      KeptIndicesExact(init, keep);
      KeptIndicesIncreasing(init, keep);
      forall j | 0 <= j < |s|
        ensures j in KeptIndices(s, keep) <==> keep(s[j])
      {
        if j < |s| - 1 {
          assert s[j] == init[j];
        }
      }
    }
  }

  /** Nothing is dropped exactly when every element satisfies `keep`, and then
      the result is the input itself. */
  lemma {:induction false} FilterKeepsAll<T>(s: seq<T>, keep: T -> bool)
    ensures |Filter(s, keep)| == |s| <==> forall i :: 0 <= i < |s| ==> keep(s[i])
    ensures (forall i :: 0 <= i < |s| ==> keep(s[i])) ==> Filter(s, keep) == s
  {
    if s != [] {
      var init := s[..|s| - 1];
      FilterKeepsAll(init, keep);
      if forall i :: 0 <= i < |s| ==> keep(s[i]) {
        assert forall i :: 0 <= i < |init| ==> keep(init[i]) by {
          forall i | 0 <= i < |init| ensures keep(init[i]) { assert init[i] == s[i]; }
        }
        assert init + [s[|s| - 1]] == s;
      } else if keep(s[|s| - 1]) {
        var i :| 0 <= i < |s| && !keep(s[i]);
        assert init[i] == s[i];
      }
    }
  }

  /** Two predicates that agree on the elements of `s` select the same. */
  lemma {:induction false} FilterCongruent<T>(s: seq<T>, f: T -> bool, g: T -> bool)
    requires forall i :: 0 <= i < |s| ==> f(s[i]) == g(s[i])
    ensures Filter(s, f) == Filter(s, g)
  {
    if s != [] {
      var init := s[..|s| - 1];
      assert forall i :: 0 <= i < |init| ==> init[i] == s[i];
      FilterCongruent(init, f, g);
    }
  }

  /** Filtering twice is filtering once by the conjunction. */
  lemma {:induction false} FilterFilter<T>(s: seq<T>, f: T -> bool, g: T -> bool, both: T -> bool)
    requires forall x :: both(x) == (f(x) && g(x))
    ensures Filter(Filter(s, f), g) == Filter(s, both)
  {
    if s != [] {
      var init, last := s[..|s| - 1], s[|s| - 1];
      FilterFilter(init, f, g, both);
      if f(last) {
        var r := Filter(init, f);
        assert (r + [last])[..|r + [last]| - 1] == r;
      }
    }
  }

  /** Selecting by a mask that records `keep` of each element is filtering
      by `keep`. */
  lemma {:induction false} MaskedIsFilter<T>(s: seq<T>, mask: seq<bool>, keep: T -> bool)
    requires |mask| == |s|
    requires forall i :: 0 <= i < |s| ==> mask[i] == keep(s[i])
    ensures Masked(s, mask) == Filter(s, keep)
  {
    if s != [] {
      var n := |s| - 1;
      assert forall i :: 0 <= i < n ==> s[..n][i] == s[i] && mask[..n][i] == mask[i];
      MaskedIsFilter(s[..n], mask[..n], keep);
    }
  }

  /** An element is selected exactly when it occurs and satisfies `keep`. */
  lemma {:induction false} FilterMembership<T>(s: seq<T>, keep: T -> bool, x: T)
    ensures x in Filter(s, keep) <==> x in s && keep(x)
  {
    if s != [] {
      var init := s[..|s| - 1];
      FilterMembership(init, keep, x);
      assert s == init + [s[|s| - 1]];
    }
  }

  /** Unfolding `Filter` from the front. */
  lemma {:induction false} FilterCons<T>(s: seq<T>, keep: T -> bool)
    requires s != []
    ensures Filter(s, keep) == (if keep(s[0]) then [s[0]] else []) + Filter(s[1..], keep)
  {
    if |s| == 1 {
      assert s[..0] == [] && s[1..] == [];
    } else {
      var init := s[..|s| - 1];
      FilterCons(init, keep);
      assert init[0] == s[0];
      assert init[1..] == s[1..][..|s[1..]| - 1];
      assert s[1..][|s[1..]| - 1] == s[|s| - 1];
    }
  }
}
