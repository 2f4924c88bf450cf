/**
 * Settling a betting round's ledger into the pots (hand.py lines 255-275): an
 * equal ledger is added to the active pot, the last of the list; an unequal one
 * replaces the active pot by the pots peeled from it.
 */
module Settlement {
  import opened Ledger
  import opened Sorting
  import opened SidePots

  /** The pots once the round's ledger is settled, before folded players leave the active pot. */
  function Settle<P>(pots: seq<Pot<P>>, ledger: seq<Bet<P>>): (r: seq<Pot<P>>)
    requires |pots| > 0
  {
    var active := pots[|pots| - 1];
    var m := MaxRaise(ledger);
    if AllAt(ledger, m) then
      pots[..|pots| - 1] + [Pot(active.amount + Sum(ledger), active.level + m, active.eligible)]
    else
      pots[..|pots| - 1] + PeelPots(SortBy(ledger, AmountKey), active.amount, active.level)
  }

  /**
   * Only the active pot is replaced: the pots before it are kept. An equal
   * round keeps the number of pots and the active pot's players; an unequal
   * one opens at least one side pot.
   */
  lemma {:induction false} SettleKeepsEarlierPots<P>(pots: seq<Pot<P>>, ledger: seq<Bet<P>>)
    requires |pots| > 0
    ensures var r := Settle(pots, ledger);
      && r[..|pots| - 1] == pots[..|pots| - 1]
      && (AllAt(ledger, MaxRaise(ledger)) ==> |r| == |pots| && r[|r| - 1].eligible == pots[|pots| - 1].eligible)
      && (!AllAt(ledger, MaxRaise(ledger)) ==> |r| > |pots|)
  {
    var r := Settle(pots, ledger);
    if !AllAt(ledger, MaxRaise(ledger)) {
      var active := pots[|pots| - 1];
      var peeled := PeelPots(SortBy(ledger, AmountKey), active.amount, active.level);
      assert |peeled| >= 2 by {
        UnequalPeelsTwice(ledger, active.amount, active.level);
      }
      assert r == pots[..|pots| - 1] + peeled;
    }
  }

  /** An unequal ledger is peeled into at least two pots. */
  lemma {:induction false} UnequalPeelsTwice<P>(ledger: seq<Bet<P>>, base: int, level: int)
    requires !AllAt(ledger, MaxRaise(ledger))
    ensures |PeelPots(SortBy(ledger, AmountKey), base, level)| >= 2
  {
    var sorted := SortBy(ledger, AmountKey);
    SortedAscending(ledger);
    var m := MaxRaise(ledger);
    var j :| 0 <= j < |ledger| && ledger[j].amount != m;
    assert ledger[j] in multiset(sorted);
    var k :| 0 <= k < |sorted| && sorted[k] == ledger[j];
    assert sorted[|sorted| - 1].amount == m by {
      AscendingMax(sorted);
      MaxRaisePermutation(sorted, ledger);
    }
    assert sorted[0].amount <= sorted[k].amount < m;
    LoweredTail(sorted, sorted[0].amount);
    PeelPotsUnfold(sorted, base, level);
  }

  /** Replacing the last pot of a list by `tail` swaps its amount for the amounts in `tail`. */
  lemma {:induction false} TotalAmountReplaceLast<P>(pots: seq<Pot<P>>, tail: seq<Pot<P>>)
    requires |pots| > 0
    ensures TotalAmount(pots[..|pots| - 1] + tail) == TotalAmount(pots) - pots[|pots| - 1].amount + TotalAmount(tail)
  {
    var earlier, active := pots[..|pots| - 1], pots[|pots| - 1];
    assert pots == earlier + [active];
    TotalAmountAppend(earlier, [active]);
    TotalAmountAppend(earlier, tail);
    TotalAmountOne(active);
  }

  /** Conservation: settling adds exactly the round's wagers to the pots. */
  lemma {:induction false} SettleConservesChips<P>(pots: seq<Pot<P>>, ledger: seq<Bet<P>>)
    requires |pots| > 0
    ensures TotalAmount(Settle(pots, ledger)) == TotalAmount(pots) + Sum(ledger)
  {
    if AllAt(ledger, MaxRaise(ledger)) {
      MergeConservesChips(pots, ledger);
    } else {
      PeelSettleConservesChips(pots, ledger);
    }
  }

  lemma {:induction false} MergeConservesChips<P>(pots: seq<Pot<P>>, ledger: seq<Bet<P>>)
    requires |pots| > 0 && AllAt(ledger, MaxRaise(ledger))
    ensures TotalAmount(Settle(pots, ledger)) == TotalAmount(pots) + Sum(ledger)
  {
    var active := pots[|pots| - 1];
    var merged := Pot(active.amount + Sum(ledger), active.level + MaxRaise(ledger), active.eligible);
    SettleMerges(pots, ledger);
    TotalAmountReplaceLast(pots, [merged]);
    TotalAmountOne(merged);
  }

  lemma {:induction false} SettleMerges<P>(pots: seq<Pot<P>>, ledger: seq<Bet<P>>)
    requires |pots| > 0 && AllAt(ledger, MaxRaise(ledger))
    ensures var active := pots[|pots| - 1];
      Settle(pots, ledger) == pots[..|pots| - 1] + [Pot(active.amount + Sum(ledger), active.level + MaxRaise(ledger), active.eligible)]
  {
  }

  lemma {:induction false} TotalAmountOne<P>(pot: Pot<P>)
    ensures TotalAmount([pot]) == pot.amount
  {
    assert [pot][1..] == [];
  }

  lemma {:induction false} PeelSettleConservesChips<P>(pots: seq<Pot<P>>, ledger: seq<Bet<P>>)
    requires |pots| > 0 && !AllAt(ledger, MaxRaise(ledger))
    ensures TotalAmount(Settle(pots, ledger)) == TotalAmount(pots) + Sum(ledger)
  {
    var active := pots[|pots| - 1];
    var sorted := SortBy(ledger, AmountKey);
    assert TotalAmount(PeelPots(sorted, active.amount, active.level)) == active.amount + Sum(ledger) by {
      SortedAscending(ledger);
      PeelConservesChips(sorted, active.amount, active.level);
      SortSum(ledger);
      assert |sorted| > 0;
    }
    TotalAmountReplaceLast(pots, PeelPots(sorted, active.amount, active.level));
  }

  /** After settling, the active pot's level is the old level plus the round's largest wager. */
  lemma {:induction false} SettleLevel<P>(pots: seq<Pot<P>>, ledger: seq<Bet<P>>)
    requires |pots| > 0
    ensures var r := Settle(pots, ledger);
      r[|r| - 1].level == pots[|pots| - 1].level + MaxRaise(ledger)
  {
    if !AllAt(ledger, MaxRaise(ledger)) {
      var sorted := SortBy(ledger, AmountKey);
      SortedAscending(ledger);
      PeelLastLevel(sorted, pots[|pots| - 1].amount, pots[|pots| - 1].level);
      MaxRaisePermutation(sorted, ledger);
    }
  }

  /**
   * After an unequal round the active pot is open only to players holding a
   * wager in the ledger, each once when the ledger has one entry per player.
   */
  lemma {:induction false} SettleEligible<P>(pots: seq<Pot<P>>, ledger: seq<Bet<P>>)
    requires |pots| > 0 && !AllAt(ledger, MaxRaise(ledger))
    ensures var r := Settle(pots, ledger);
      var e := r[|r| - 1].eligible;
      && (forall k :: 0 <= k < |e| ==> HasEntry(ledger, e[k]))
      && (DistinctOwners(ledger) ==> forall i, j :: 0 <= i < j < |e| ==> e[i] != e[j])
  {
    var r := Settle(pots, ledger);
    var e := r[|r| - 1].eligible;
    var sorted := SortBy(ledger, AmountKey);
    assert e == Owners(sorted)[|sorted| - |e|..] by {
      ActiveOwnersTail(pots, ledger);
    }
    forall k | 0 <= k < |e|
      ensures HasEntry(ledger, e[k])
    {
      var i := |sorted| - |e| + k;
      assert e[k] == sorted[i].who;
      assert sorted[i] in multiset(ledger);
    }
    if DistinctOwners(ledger) {
      SortKeepsOwnersDistinct(ledger);
      forall i, j | 0 <= i < j < |e|
        ensures e[i] != e[j]
      {
        assert e[i] == sorted[|sorted| - |e| + i].who && e[j] == sorted[|sorted| - |e| + j].who;
      }
    }
  }

  /**
   * After an unequal round the active pot is open to the owners of exactly
   * the largest wagers: a tail of the sorted ledger, where the amount is the
   * round's largest.
   */
  lemma {:induction false} ActiveOwnersTail<P>(pots: seq<Pot<P>>, ledger: seq<Bet<P>>)
    requires |pots| > 0 && !AllAt(ledger, MaxRaise(ledger))
    ensures var r, sorted := Settle(pots, ledger), SortBy(ledger, AmountKey);
      var e := r[|r| - 1].eligible;
      && |e| <= |sorted| && e == Owners(sorted)[|sorted| - |e|..]
      && forall i :: 0 <= i < |sorted| ==> (|sorted| - |e| <= i <==> sorted[i].amount == MaxRaise(ledger))
  {
    var active := pots[|pots| - 1];
    var sorted := SortBy(ledger, AmountKey);
    var peeled := PeelPots(sorted, active.amount, active.level);
    var r := Settle(pots, ledger);
    assert |peeled| > 0 && r[|r| - 1] == peeled[|peeled| - 1] by {
      UnequalPeelsTwice(ledger, active.amount, active.level);
      assert r == pots[..|pots| - 1] + peeled;
    }
    assert OpenFrom(sorted, peeled[|peeled| - 1], MaxRaise(ledger)) by {
      SortedAscending(ledger);
      PeelLastLevel(sorted, active.amount, active.level);
      MaxRaisePermutation(sorted, ledger);
      PeelEligibility(sorted, active.amount, active.level);
    }
    assert MaxRaise(sorted) == MaxRaise(ledger) by {
      SortedAscending(ledger);
      MaxRaisePermutation(sorted, ledger);
    }
  }

  /**
   * With one entry per player, a player stays in the active pot after an
   * unequal round if and only if their wager is the round's largest.
   */
  lemma {:induction false} ActivePlayersMatchedTop<P>(pots: seq<Pot<P>>, ledger: seq<Bet<P>>)
    requires |pots| > 0 && !AllAt(ledger, MaxRaise(ledger)) && DistinctOwners(ledger)
    ensures var r := Settle(pots, ledger);
      forall j :: 0 <= j < |ledger| ==> (ledger[j].who in r[|r| - 1].eligible <==> ledger[j].amount == MaxRaise(ledger))
  {
    var r, sorted := Settle(pots, ledger), SortBy(ledger, AmountKey);
    ActiveOwnersTail(pots, ledger);
    SortedAscending(ledger);
    SortKeepsOwnersDistinct(ledger);
    TailMembership(ledger, sorted, r[|r| - 1].eligible, MaxRaise(ledger));
  }

  /**
   * When the owners of a tail of a reordering of `ledger` are `e` and the
   * tail is where the amount is `m`, a player is in `e` exactly when their
   * wager is `m`.
   */
  lemma {:induction false} TailMembership<P>(ledger: seq<Bet<P>>, sorted: seq<Bet<P>>, e: seq<P>, m: int)
    requires multiset(sorted) == multiset(ledger) && DistinctOwners(sorted)
    requires |e| <= |sorted| && e == Owners(sorted)[|sorted| - |e|..]
    requires forall i :: 0 <= i < |sorted| ==> (|sorted| - |e| <= i <==> sorted[i].amount == m)
    ensures forall j :: 0 <= j < |ledger| ==> (ledger[j].who in e <==> ledger[j].amount == m)
  {
    forall j | 0 <= j < |ledger|
      ensures ledger[j].who in e <==> ledger[j].amount == m
    {
      assert ledger[j] in multiset(sorted);
      var i :| 0 <= i < |sorted| && sorted[i] == ledger[j];
      TailMember(sorted, e, i);
    }
  }

  /** With distinct owners, the owner of wager `i` is in the tail's owners `e` exactly when `i` is in the tail. */
  lemma {:induction false} TailMember<P>(sorted: seq<Bet<P>>, e: seq<P>, i: nat)
    requires DistinctOwners(sorted) && i < |sorted|
    requires |e| <= |sorted| && e == Owners(sorted)[|sorted| - |e|..]
    ensures sorted[i].who in e <==> |sorted| - |e| <= i
  {
    var off := |sorted| - |e|;
    if off <= i {
      assert e[i - off] == sorted[i].who;
    }
    if sorted[i].who in e {
      var q :| 0 <= q < |e| && e[q] == sorted[i].who;
      assert e[q] == sorted[off + q].who;
    }
  }

  /** The last pot of a nested chain is open to a tail of the first pot's players. */
  lemma {:induction false} NestedLast<P>(pots: seq<Pot<P>>)
    requires |pots| > 0 && Nested(pots)
    ensures var f, l := pots[0].eligible, pots[|pots| - 1].eligible;
      |l| <= |f| && l == f[|f| - |l|..]
    decreases |pots|
  {
    if |pots| > 1 {
      NestedLast(pots[1..]);
      var f, g, l := pots[0].eligible, pots[1].eligible, pots[|pots| - 1].eligible;
      assert pots[1..][|pots| - 2] == pots[|pots| - 1];
      assert g == f[|f| - |g|..];
      assert l == g[|g| - |l|..];
    }
  }

  // ---------------------------------------------------------------------------
  // Sorting the ledger keeps what the settlement reads from it.

  lemma {:induction false} InsertSum<P>(x: Bet<P>, s: seq<Bet<P>>)
    ensures Sum(Insert(x, s, AmountKey)) == x.amount + Sum(s)
    decreases |s|
  {
    var r := Insert(x, s, AmountKey);
    SumFront(r);
    if |s| == 0 || AmountKey(x) <= AmountKey(s[0]) {
      assert r[1..] == s;
    } else {
      InsertSum(x, s[1..]);
      SumFront(s);
      assert r[1..] == Insert(x, s[1..], AmountKey);
    }
  }

  /** Sorting keeps the total of the wagers. */
  lemma {:induction false} SortSum<P>(s: seq<Bet<P>>)
    ensures Sum(SortBy(s, AmountKey)) == Sum(s)
    decreases |s|
  {
    if |s| > 0 {
      SortSum(s[1..]);
      InsertSum(s[0], SortBy(s[1..], AmountKey));
      SumFront(s);
    }
  }

  /** Two ledgers holding the same wagers have the same largest wager. */
  lemma {:induction false} MaxRaisePermutation<P>(a: seq<Bet<P>>, b: seq<Bet<P>>)
    requires multiset(a) == multiset(b)
    ensures MaxRaise(a) == MaxRaise(b)
  {
    assert |a| == |multiset(a)| == |b|;
    if |a| > 0 {
      var i :| 0 <= i < |a| && a[i].amount == MaxRaise(a);
      assert a[i] in multiset(b);
      var j :| 0 <= j < |b| && b[j].amount == MaxRaise(b);
      assert b[j] in multiset(a);
    }
  }

  lemma {:induction false} InsertKeepsOwnersDistinct<P>(x: Bet<P>, s: seq<Bet<P>>)
    requires DistinctOwners(s) && forall k :: 0 <= k < |s| ==> s[k].who != x.who
    ensures DistinctOwners(Insert(x, s, AmountKey))
    decreases |s|
  {
    var r := Insert(x, s, AmountKey);
    if |s| == 0 || AmountKey(x) <= AmountKey(s[0]) {
      assert r == [x] + s;
    } else {
      var rest := Insert(x, s[1..], AmountKey);
      InsertKeepsOwnersDistinct(x, s[1..]);
      assert r == [s[0]] + rest;
      forall k | 0 <= k < |rest|
        ensures rest[k].who != s[0].who
      {
        assert rest[k] in multiset(s[1..]) + multiset{x};
        if rest[k] != x {
          assert rest[k] in s[1..];
        }
      }
    }
  }

  /** Sorting a ledger with one entry per player keeps one entry per player. */
  lemma {:induction false} SortKeepsOwnersDistinct<P>(s: seq<Bet<P>>)
    requires DistinctOwners(s)
    ensures DistinctOwners(SortBy(s, AmountKey))
    decreases |s|
  {
    if |s| > 0 {
      var rest := SortBy(s[1..], AmountKey);
      SortKeepsOwnersDistinct(s[1..]);
      forall k | 0 <= k < |rest|
        ensures rest[k].who != s[0].who
      {
        assert rest[k] in multiset(s[1..]);
      }
      InsertKeepsOwnersDistinct(s[0], rest);
    }
  }
}
