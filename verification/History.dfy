/** History: a condition that some steps of a run bring about and others end. */
module History {
  /** The j-th of n steps brings it about, and none after it ends it. */
  ghost predicate Since(sets: nat -> bool, clears: nat -> bool, j: nat, n: nat) {
    j < n && sets(j) && forall k: nat :: j < k < n ==> !clears(k)
  }

  ghost predicate Lasting(sets: nat -> bool, clears: nat -> bool, n: nat) { exists j: nat :: Since(sets, clears, j, n) }

  ghost predicate Never(clears: nat -> bool, n: nat) { forall k: nat :: k < n ==> !clears(k) }

  /** What the i-th step does to it. */
  ghost predicate Follows(on: nat -> bool, sets: nat -> bool, clears: nat -> bool, i: nat) {
    on(i + 1) <==> sets(i) || (on(i) && !clears(i))
  }

  /** It holds after n steps exactly when it held at the start or some step brought it about,
      and no step since has ended it. A step that does both brings it about. */
  lemma {:induction false} SetAndNotCleared(on: nat -> bool, sets: nat -> bool, clears: nat -> bool, n: nat)
    requires forall i: nat :: i < n ==> Follows(on, sets, clears, i)
    ensures on(n) <==> (on(0) && Never(clears, n)) || Lasting(sets, clears, n)
  {
    if n > 0 {
      var m := n - 1;
      SetAndNotCleared(on, sets, clears, m);
      assert Follows(on, sets, clears, m);
      if sets(m) { assert Since(sets, clears, m, n); }
      if Lasting(sets, clears, m) && !clears(m) {
        var j: nat :| Since(sets, clears, j, m);
        assert Since(sets, clears, j, n);
      }
      if Lasting(sets, clears, n) {
        var j: nat :| Since(sets, clears, j, n);
        assert j == m || Since(sets, clears, j, m);
      }
    }
  }

  /** Of the steps that bring it about one is the last. */
  lemma {:induction false} Latest(sets: nat -> bool, n: nat, i: nat) returns (j: nat)
    requires i < n && sets(i)
    ensures Since(sets, sets, j, n)
  {
    if sets(n - 1) { return n - 1; }
    j := Latest(sets, n - 1, i);
  }
}
