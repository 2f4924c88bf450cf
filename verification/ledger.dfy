/**
 * The per-round ledger: one wager per player for the current betting round
 * (the `Bet` record and the `Bets` dictionary of hand.py). The dictionary keeps
 * insertion order, so it is modelled as a sequence whose owners are distinct.
 */
module Ledger {

  /** One player's wager in the current round. */
  datatype Bet<P> = Bet(amount: int, who: P)

  /** The sum of the ledger's amounts, accumulated front to back. */
  function Sum<P>(bets: seq<Bet<P>>): int
  {
    if |bets| == 0 then 0 else Sum(bets[..|bets| - 1]) + bets[|bets| - 1].amount
  }

  /** `Bets.total_raise`: the loop that adds up every amount in the ledger. */
  method TotalRaise<P>(bets: seq<Bet<P>>) returns (total: int)
    ensures total == Sum(bets)
  {
    total := 0;
    for i := 0 to |bets|
      invariant total == Sum(bets[..i])
    {
      assert bets[..i + 1][..i] == bets[..i];
      total := total + bets[i].amount;
    }
    assert bets[..|bets|] == bets;
  }

  /** `Bets.max_raise`: the largest amount in the ledger, or 0 when it is empty. */
  function MaxRaise<P>(bets: seq<Bet<P>>): (m: int)
    ensures |bets| == 0 ==> m == 0
    ensures forall i :: 0 <= i < |bets| ==> bets[i].amount <= m
    ensures |bets| > 0 ==> exists i :: 0 <= i < |bets| && bets[i].amount == m
  {
    if |bets| == 0 then 0
    else if |bets| == 1 then bets[0].amount
    else
      var rest := MaxRaise(bets[1..]);
      assert forall i :: 1 <= i < |bets| ==> bets[i] == bets[1..][i - 1];
      if bets[0].amount >= rest then bets[0].amount else rest
  }

  /** Every wager in the ledger equals `m` (the test of hand.py line 256). */
  predicate AllAt<P>(bets: seq<Bet<P>>, m: int)
  {
    forall i :: 0 <= i < |bets| ==> bets[i].amount == m
  }

  /** No player has two entries: the ledger is keyed by its owners. */
  predicate DistinctOwners<P(==)>(bets: seq<Bet<P>>)
  {
    forall i, j :: 0 <= i < j < |bets| ==> bets[i].who != bets[j].who
  }

  predicate HasEntry<P(==)>(bets: seq<Bet<P>>, who: P)
  {
    exists i :: 0 <= i < |bets| && bets[i].who == who
  }

  /** The position of `who`'s entry, or |bets| when there is none. */
  function IndexOf<P(==)>(bets: seq<Bet<P>>, who: P): (i: nat)
    ensures i <= |bets|
    ensures i < |bets| ==> bets[i].who == who
    ensures forall j :: 0 <= j < i ==> bets[j].who != who
  {
    if |bets| == 0 then 0
    else if bets[0].who == who then 0
    else 1 + IndexOf(bets[1..], who)
  }

  /** `who`'s wager this round; a player without an entry has wagered nothing. */
  function AmountOf<P(==)>(bets: seq<Bet<P>>, who: P): int
  {
    var i := IndexOf(bets, who);
    if i < |bets| then bets[i].amount else 0
  }

  /**
   * What `call_bet` and `raise_bet` do to the ledger (hand.py lines 287-290 and
   * 300-303): the player's entry grows by `diff`, or is created holding `diff`.
   */
  function Recorded<P(==)>(bets: seq<Bet<P>>, who: P, diff: int): (r: seq<Bet<P>>)
    ensures Sum(r) == Sum(bets) + diff
    ensures AmountOf(r, who) == AmountOf(bets, who) + diff
    ensures DistinctOwners(bets) ==> DistinctOwners(r)
  {
    var i := IndexOf(bets, who);
    if i < |bets| then
      GrowEntry(bets, who, diff, i);
      bets[i := bets[i].(amount := bets[i].amount + diff)]
    else
      NewEntry(bets, who, diff);
      bets + [Bet(diff, who)]
  }

  lemma {:induction false} GrowEntry<P>(bets: seq<Bet<P>>, who: P, diff: int, i: nat)
    requires i == IndexOf(bets, who) < |bets|
    ensures var r := bets[i := bets[i].(amount := bets[i].amount + diff)];
      && Sum(r) == Sum(bets) + diff
      && AmountOf(r, who) == AmountOf(bets, who) + diff
      && HasEntry(bets, who) && HasEntry(r, who)
      && (forall j :: 0 <= j < |r| ==> r[j].who == bets[j].who)
      && (forall j :: 0 <= j < |bets| ==> HasEntry(r, bets[j].who))
      && (DistinctOwners(bets) ==> DistinctOwners(r))
  {
    var r := bets[i := bets[i].(amount := bets[i].amount + diff)];
    SumUpdate(bets, i, bets[i].amount + diff);
    IndexOfUpdate(bets, i, bets[i].amount + diff, who);
    assert r[i].who == who;
    assert forall j :: 0 <= j < |bets| ==> r[j].who == bets[j].who;
  }

  lemma {:induction false} NewEntry<P>(bets: seq<Bet<P>>, who: P, diff: int)
    requires IndexOf(bets, who) == |bets|
    ensures var r := bets + [Bet(diff, who)];
      && Sum(r) == Sum(bets) + diff
      && AmountOf(r, who) == AmountOf(bets, who) + diff
      && !HasEntry(bets, who) && HasEntry(r, who)
      && (forall j :: 0 <= j < |bets| ==> r[j] == bets[j])
      && (forall j :: 0 <= j < |bets| ==> HasEntry(r, bets[j].who))
      && (DistinctOwners(bets) ==> DistinctOwners(r))
  {
    var r := bets + [Bet(diff, who)];
    assert r[..|r| - 1] == bets;
    IndexOfAppend(bets, Bet(diff, who), who);
    assert r[|bets|].who == who;
    assert forall j :: 0 <= j < |bets| ==> r[j] == bets[j];
  }

  /** After recording, `who` has an entry, and the ledger grows by one entry exactly when `who` had none. */
  lemma {:induction false} RecordedEntries<P>(bets: seq<Bet<P>>, who: P, diff: int)
    ensures var r := Recorded(bets, who, diff);
      && HasEntry(r, who)
      && |r| == (if HasEntry(bets, who) then |bets| else |bets| + 1)
  {
    var i := IndexOf(bets, who);
    if i < |bets| {
      assert Recorded(bets, who, diff) == bets[i := bets[i].(amount := bets[i].amount + diff)];
      GrowEntry(bets, who, diff, i);
    } else {
      assert Recorded(bets, who, diff) == bets + [Bet(diff, who)];
      NewEntry(bets, who, diff);
    }
  }

  /** Recording keeps every earlier owner's entry and adds no owner but `who`. */
  lemma {:induction false} RecordedOwners<P>(bets: seq<Bet<P>>, who: P, diff: int)
    ensures var r := Recorded(bets, who, diff);
      && (forall j :: 0 <= j < |r| ==> r[j].who == who || HasEntry(bets, r[j].who))
      && (forall j :: 0 <= j < |bets| ==> HasEntry(r, bets[j].who))
  {
    var r := Recorded(bets, who, diff);
    var i := IndexOf(bets, who);
    if i < |bets| {
      assert r == bets[i := bets[i].(amount := bets[i].amount + diff)];
    } else {
      assert r == bets + [Bet(diff, who)];
    }
    assert forall j :: 0 <= j < |bets| ==> r[j].who == bets[j].who;
    forall j | 0 <= j < |r| && r[j].who != who
      ensures HasEntry(bets, r[j].who)
    {
      assert bets[j].who == r[j].who;
    }
    forall j | 0 <= j < |bets|
      ensures HasEntry(r, bets[j].who)
    {
      assert r[j].who == bets[j].who;
    }
  }

  /** Recording a wager for one player leaves every other player's wager as it was. */
  lemma {:induction false} RecordedLeavesOthers<P>(bets: seq<Bet<P>>, who: P, diff: int, w: P)
    requires w != who
    ensures AmountOf(Recorded(bets, who, diff), w) == AmountOf(bets, w)
  {
    var i := IndexOf(bets, who);
    if i < |bets| {
      IndexOfUpdate(bets, i, bets[i].amount + diff, w);
    } else {
      IndexOfAppend(bets, Bet(diff, who), w);
    }
  }

  lemma {:induction false} SumUpdate<P>(bets: seq<Bet<P>>, i: nat, amount: int)
    requires i < |bets|
    ensures Sum(bets[i := bets[i].(amount := amount)]) == Sum(bets) - bets[i].amount + amount
    decreases |bets|
  {
    var updated := bets[i := bets[i].(amount := amount)];
    if i < |bets| - 1 {
      assert updated[..|bets| - 1] == bets[..|bets| - 1][i := bets[i].(amount := amount)];
      SumUpdate(bets[..|bets| - 1], i, amount);
    } else {
      assert updated[..|bets| - 1] == bets[..|bets| - 1];
    }
  }

  lemma {:induction false} IndexOfUpdate<P>(bets: seq<Bet<P>>, i: nat, amount: int, w: P)
    requires i < |bets|
    ensures IndexOf(bets[i := bets[i].(amount := amount)], w) == IndexOf(bets, w)
    decreases |bets|
  {
    var r := bets[i := bets[i].(amount := amount)];
    if bets[0].who != w && i > 0 {
      assert r[1..] == bets[1..][i - 1 := bets[i].(amount := amount)];
      IndexOfUpdate(bets[1..], i - 1, amount, w);
    }
  }

  lemma {:induction false} IndexOfAppend<P>(bets: seq<Bet<P>>, b: Bet<P>, w: P)
    ensures IndexOf(bets + [b], w) == if HasEntry(bets, w) then IndexOf(bets, w) else if b.who == w then |bets| else |bets| + 1
    ensures HasEntry(bets, w) <==> IndexOf(bets, w) < |bets|
    decreases |bets|
  {
    if |bets| == 0 {
    } else if bets[0].who == w {
    } else {
      assert (bets + [b])[1..] == bets[1..] + [b];
      IndexOfAppend(bets[1..], b, w);
      assert HasEntry(bets, w) <==> HasEntry(bets[1..], w) by {
        if HasEntry(bets, w) {
          var j :| 0 <= j < |bets| && bets[j].who == w;
          assert bets[1..][j - 1].who == w;
        }
        if HasEntry(bets[1..], w) {
          var j :| 0 <= j < |bets[1..]| && bets[1..][j].who == w;
          assert bets[j + 1].who == w;
        }
      }
    }
  }

  /** Appending a wager for a player without an entry gives them that wager and leaves everyone else's. */
  lemma {:induction false} AmountOfAppend<P>(bets: seq<Bet<P>>, b: Bet<P>, w: P)
    ensures AmountOf(bets + [b], w) ==
      if HasEntry(bets, w) then AmountOf(bets, w) else if b.who == w then b.amount else 0
    ensures !HasEntry(bets, w) ==> AmountOf(bets, w) == 0
  {
    IndexOfAppend(bets, b, w);
    if HasEntry(bets, w) {
      assert (bets + [b])[IndexOf(bets, w)] == bets[IndexOf(bets, w)];
    }
  }

  /** Recording keeps the owners within any list that holds the old owners and the one recording. */
  lemma {:induction false} RecordedOwnersWithin<P>(bets: seq<Bet<P>>, who: P, diff: int, ws: seq<P>)
    requires (forall j :: 0 <= j < |bets| ==> bets[j].who in ws) && who in ws
    ensures var r := Recorded(bets, who, diff);
      forall j :: 0 <= j < |r| ==> r[j].who in ws
  {
    var r := Recorded(bets, who, diff);
    RecordedOwners(bets, who, diff);
    forall j | 0 <= j < |r|
      ensures r[j].who in ws
    {
      if r[j].who != who {
        var i :| 0 <= i < |bets| && bets[i].who == r[j].who;
      }
    }
  }
}
