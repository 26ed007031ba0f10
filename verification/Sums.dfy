/** Sums of a weight over a sequence, and how one update changes them. */
module Sums {

  ghost function Sum<T>(s: seq<T>, weight: T -> nat): nat {
    if s == [] then 0 else Sum(s[..|s| - 1], weight) + weight(s[|s| - 1])
  }

  lemma {:induction false} SumAppend<T>(s: seq<T>, weight: T -> nat, x: T)
    ensures Sum(s + [x], weight) == Sum(s, weight) + weight(x)
  {
    assert (s + [x])[..|s|] == s;
  }

  lemma {:induction false} SumUpdate<T>(s: seq<T>, weight: T -> nat, i: nat, x: T)
    requires i < |s|
    ensures Sum(s[i := x], weight) + weight(s[i]) == Sum(s, weight) + weight(x)
  {
    var last := |s| - 1;
    if i == last {
      assert s[i := x][..last] == s[..last];
    } else {
      assert s[i := x][..last] == s[..last][i := x];
      SumUpdate(s[..last], weight, i, x);
    }
  }

  lemma {:induction false} SumAtLeast<T>(s: seq<T>, weight: T -> nat, i: nat)
    requires i < |s|
    ensures weight(s[i]) <= Sum(s, weight)
  {
    if i < |s| - 1 {
      assert s[..|s| - 1][i] == s[i];
      SumAtLeast(s[..|s| - 1], weight, i);
    }
  }

  lemma {:induction false} SumSplit<T>(s: seq<T>, f: T -> nat, g: T -> nat, both: T -> nat)
    requires forall i :: 0 <= i < |s| ==> both(s[i]) == f(s[i]) + g(s[i])
    ensures Sum(s, both) == Sum(s, f) + Sum(s, g)
  {
    if s != [] {
      var front := s[..|s| - 1];
      assert forall i :: 0 <= i < |front| ==> front[i] == s[i];
      SumSplit(front, f, g, both);
    }
  }

  /** A positive sum has a positive term. */
  lemma {:induction false} SumWitness<T>(s: seq<T>, weight: T -> nat) returns (i: nat)
    requires Sum(s, weight) > 0
    ensures i < |s| && weight(s[i]) > 0
  {
    var last := |s| - 1;
    if weight(s[last]) > 0 {
      i := last;
    } else {
      i := SumWitness(s[..last], weight);
      assert s[..last][i] == s[i];
    }
  }

  /** If no term exceeds one and no two terms are positive, the sum does not exceed one. */
  lemma {:induction false} SumAtMostOne<T>(s: seq<T>, weight: T -> nat)
    requires forall i :: 0 <= i < |s| ==> weight(s[i]) <= 1
    requires forall i, j :: 0 <= i < j < |s| ==> weight(s[i]) == 0 || weight(s[j]) == 0
    ensures Sum(s, weight) <= 1
  {
    if s != [] {
      var last := |s| - 1;
      SumAtMostOne(s[..last], weight);
      if Sum(s[..last], weight) > 0 {
        var i := SumWitness(s[..last], weight);
        assert weight(s[i]) > 0;
      }
    }
  }
}
