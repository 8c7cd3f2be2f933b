/** Faults: what can go wrong with a call to a store. A store counts its calls, and its
    faults say how the n-th ends, so a contract can tell an answer from an accident. */
module Faults {
  /** Answered; lost on the way, without effect; or carried out with the reply lost. */
  datatype Fault = NoFault | LostCall | LostReply

  /** None of these calls met a fault. */
  ghost predicate Calm(faults: nat -> Fault, from: nat, to: nat) {
    forall k: nat :: from <= k < to ==> faults(k).NoFault?
  }

  lemma CalmThen(faults: nat -> Fault, a: nat, b: nat, c: nat)
    requires a <= b <= c && Calm(faults, a, b)
    ensures Calm(faults, a, c) <==> Calm(faults, b, c)
    ensures c == b + 1 ==> (Calm(faults, b, c) <==> faults(b).NoFault?)
    ensures c == b ==> Calm(faults, b, c)
  {
  }

  lemma CalmParts(faults: nat -> Fault, a: nat, b: nat, c: nat)
    requires a <= b <= c
    ensures Calm(faults, a, c) <==> Calm(faults, a, b) && Calm(faults, b, c)
  {
  }

  /** The store never fails. */
  ghost predicate Reliable(faults: nat -> Fault) { forall k: nat :: faults(k).NoFault? }
}
