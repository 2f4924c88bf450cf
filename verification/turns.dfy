/**
 * Seat arithmetic of the betting round: the helpers `prevp` and `nextp` of
 * `run_bet_round` (hand.py lines 195-199). A seat is a position in the active
 * pot's eligible list of `n` players. Python's `%` with a positive divisor, like
 * Dafny's, never returns a negative number.
 */
module Turns {

  /** `nextp`: the seat after `i`, clockwise. */
  function NextSeat(i: int, n: nat): (j: nat)
    requires n > 0
    ensures j < n
    ensures 0 <= i < n - 1 ==> j == i + 1
    ensures i == n - 1 ==> j == 0
  {
    (i + 1) % n
  }

  /** `prevp`: the seat before `i`. */
  function PrevSeat(i: int, n: nat): (j: nat)
    requires n > 0
    ensures j < n
    ensures 0 < i <= n ==> j == i - 1
    ensures i == 0 ==> j == n - 1
  {
    (i - 1) % n
  }

  /** The number of `nextp` steps that lead from seat `from` to seat `to`. */
  function Dist(from: nat, to: nat, n: nat): (d: nat)
    requires from < n && to < n
    ensures d < n
    ensures d == 0 <==> from == to
  {
    if from <= to then to - from else to - from + n
  }

  /** The seat reached from `from` after `k` steps. */
  function Walk(from: nat, k: nat, n: nat): (s: nat)
    requires from < n
    ensures s < n
    decreases k
  {
    if k == 0 then from else NextSeat(Walk(from, k - 1, n), n)
  }

  /** `nextp` and `prevp` undo each other. */
  lemma {:induction false} NextPrevInverse(i: nat, n: nat)
    requires i < n
    ensures NextSeat(PrevSeat(i, n), n) == i
    ensures PrevSeat(NextSeat(i, n), n) == i
  {
  }

  /** Each step of the turn loop that does not end the round brings the round's end one seat closer. */
  lemma {:induction false} DistNext(from: nat, to: nat, n: nat)
    requires from < n && to < n && from != to
    ensures Dist(NextSeat(from, n), to, n) == Dist(from, to, n) - 1
  {
  }

  /** Walking `Dist(from, to, n)` steps from `from` arrives at `to`. */
  lemma {:induction false} WalkArrives(from: nat, to: nat, n: nat)
    requires from < n && to < n
    ensures Walk(from, Dist(from, to, n), n) == to
    decreases Dist(from, to, n)
  {
    if from != to {
      var next := NextSeat(from, n);
      DistNext(from, to, n);
      WalkArrives(next, to, n);
      WalkFirstStep(from, Dist(from, to, n), n);
    }
  }

  lemma {:induction false} WalkFirstStep(from: nat, k: nat, n: nat)
    requires from < n && k > 0
    ensures Walk(from, k, n) == Walk(NextSeat(from, n), k - 1, n)
    decreases k
  {
    if k > 1 {
      WalkFirstStep(from, k - 1, n);
    }
  }

  /**
   * After a raise at seat `c` the round ends at the seat before `c`, so the
   * turns that follow reach every other seat before the round can end there,
   * and reach `c` itself only in a later lap.
   */
  lemma {:induction false} RaiseReopensRound(c: nat, n: nat)
    requires c < n && n >= 2
    ensures Dist(NextSeat(c, n), PrevSeat(c, n), n) == n - 2
    ensures forall s :: 0 <= s < n && s != c ==>
      Dist(NextSeat(c, n), s, n) <= Dist(NextSeat(c, n), PrevSeat(c, n), n)
  {
  }
}
