/** Runs of any system, seen through an invariant and a lexicographic rank of their states. */
module FairRuns {

  datatype Rank = Rank(a: nat, b: nat, c: nat, d: nat)

  predicate Less(x: Rank, y: Rank) {
    || x.a < y.a
    || (x.a == y.a && x.b < y.b)
    || (x.a == y.a && x.b == y.b && x.c < y.c)
    || (x.a == y.a && x.b == y.b && x.c == y.c && x.d < y.d)
  }

  lemma {:induction false} Invariance(holds: nat -> bool, i: nat, j: nat)
    requires i <= j && holds(i)
    requires forall k: nat :: i <= k && holds(k) ==> holds(k + 1)
    ensures holds(j)
  {
    if i < j {
      Invariance(holds, i, j - 1);
    }
  }

  ghost predicate Recurs(progress: nat -> bool, i: nat) {
    exists j: nat :: i <= j && progress(j)
  }

  ghost predicate AlwaysRecurs(progress: nat -> bool) {
    forall i: nat :: Recurs(progress, i)
  }

  lemma {:induction false} NotAbove(rank: nat -> Rank, i: nat, j: nat)
    requires i <= j
    requires forall k: nat :: i <= k ==> rank(k + 1) == rank(k) || Less(rank(k + 1), rank(k))
    ensures rank(j) == rank(i) || Less(rank(j), rank(i))
  {
    if i < j {
      NotAbove(rank, i, j - 1);
    }
  }

  /** A rank that never rises, and falls at every instant of progress before the end, lets a run with recurring
      progress come to its end. */
  lemma {:induction false} Ends(rank: nat -> Rank, progress: nat -> bool, done: nat -> bool, i: nat) returns (n: nat)
    requires forall k: nat :: i <= k ==> rank(k + 1) == rank(k) || Less(rank(k + 1), rank(k))
    requires forall k: nat :: i <= k && progress(k) && !done(k) ==> Less(rank(k + 1), rank(k))
    requires AlwaysRecurs(progress)
    ensures i <= n && done(n)
    decreases rank(i).a, rank(i).b, rank(i).c, rank(i).d
  {
    assert Recurs(progress, i);
    var j: nat :| i <= j && progress(j);
    NotAbove(rank, i, j);
    if done(j) {
      n := j;
    } else {
      n := Ends(rank, progress, done, j + 1);
    }
  }
}
