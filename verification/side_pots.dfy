/**
 * Pots and the side-pot splitter of `run_bet_round` (hand.py lines 259-275):
 * an unequal ledger is sorted by amount and peeled, smallest wager first, into
 * a chain of pots, each open only to the players who wagered at least that tier.
 */
module SidePots {
  import opened Ledger
  import opened Sorting

  /** A pot: its chips, the per-player level equalized into it, and who may win it. */
  datatype Pot<P> = Pot(amount: int, level: int, eligible: seq<P>)

  /** The sum of the amounts of a list of pots. */
  function TotalAmount<P>(pots: seq<Pot<P>>): int
  {
    if |pots| == 0 then 0 else pots[0].amount + TotalAmount(pots[1..])
  }

  lemma {:induction false} TotalAmountAppend<P>(a: seq<Pot<P>>, b: seq<Pot<P>>)
    ensures TotalAmount(a + b) == TotalAmount(a) + TotalAmount(b)
    decreases |a|
  {
    if |a| > 0 {
      assert (a + b)[1..] == a[1..] + b;
      TotalAmountAppend(a[1..], b);
    } else {
      assert a + b == b;
    }
  }

  function AmountKey<P>(b: Bet<P>): int
  {
    b.amount
  }

  /** Amounts never decrease along the ledger. */
  predicate Ascending<P>(bets: seq<Bet<P>>)
  {
    forall i, j :: 0 <= i < j < |bets| ==> bets[i].amount <= bets[j].amount
  }

  /** Sorting by amount (hand.py line 261) yields an ascending ledger with the same wagers. */
  lemma {:induction false} SortedAscending<P>(bets: seq<Bet<P>>)
    ensures Ascending(SortBy(bets, AmountKey))
    ensures multiset(SortBy(bets, AmountKey)) == multiset(bets)
  {
    var s := SortBy(bets, AmountKey);
    assert forall i, j :: 0 <= i < j < |s| ==> AmountKey(s[i]) <= AmountKey(s[j]);
  }

  /** The owners of the wagers, in ledger order. */
  function Owners<P>(bets: seq<Bet<P>>): (r: seq<P>)
    ensures |r| == |bets| && forall i :: 0 <= i < |bets| ==> r[i] == bets[i].who
  {
    seq(|bets|, i requires 0 <= i < |bets| => bets[i].who)
  }

  /** The pot made for the smallest remaining wager (hand.py lines 266-269). */
  function PeelStep<P>(bets: seq<Bet<P>>, base: int, prevLevel: int): Pot<P>
    requires |bets| > 0
  {
    Pot(base + bets[0].amount * |bets|, bets[0].amount + prevLevel, Owners(bets))
  }

  // ---------------------------------------------------------------------------
  // Lines 270-272 as written: every amount is reduced by itself, then the
  // entries with amount <= 0 are kept.

  function ZeroEach<P>(bets: seq<Bet<P>>): (r: seq<Bet<P>>)
    ensures |r| == |bets| && forall i :: 0 <= i < |bets| ==> r[i] == bets[i].(amount := bets[i].amount - bets[i].amount)
  {
    seq(|bets|, i requires 0 <= i < |bets| => bets[i].(amount := bets[i].amount - bets[i].amount))
  }

  function KeepNonPositive<P>(bets: seq<Bet<P>>): seq<Bet<P>>
  {
    if |bets| == 0 then []
    else (if bets[0].amount <= 0 then [bets[0]] else []) + KeepNonPositive(bets[1..])
  }

  /** One pass of the loop body at lines 270-272, as written. */
  function AsWrittenPass<P>(bets: seq<Bet<P>>): seq<Bet<P>>
  {
    KeepNonPositive(ZeroEach(bets))
  }

  /** The list after `k` passes of the as-written loop. */
  function AsWrittenPasses<P>(bets: seq<Bet<P>>, k: nat): seq<Bet<P>>
  {
    if k == 0 then bets else AsWrittenPass(AsWrittenPasses(bets, k - 1))
  }

  lemma {:induction false} KeepNonPositiveOfZeros<P>(bets: seq<Bet<P>>)
    requires forall i :: 0 <= i < |bets| ==> bets[i].amount == 0
    ensures KeepNonPositive(bets) == bets
    decreases |bets|
  {
    if |bets| > 0 {
      KeepNonPositiveOfZeros(bets[1..]);
      assert [bets[0]] + bets[1..] == bets;
    }
  }

  /** The as-written pass zeroes every wager and drops none of them. */
  lemma {:induction false} AsWrittenPassKeepsEveryBet<P>(bets: seq<Bet<P>>)
    ensures |AsWrittenPass(bets)| == |bets|
    ensures forall i :: 0 <= i < |bets| ==> AsWrittenPass(bets)[i] == bets[i].(amount := 0)
  {
    KeepNonPositiveOfZeros(ZeroEach(bets));
  }

  /** So on a non-empty ledger the guard `len(bets) > 0` still holds after any number of passes. */
  lemma {:induction false} AsWrittenLoopNeverEnds<P>(bets: seq<Bet<P>>, k: nat)
    requires |bets| > 0
    ensures |AsWrittenPasses(bets, k)| == |bets|
  {
    if k > 0 {
      AsWrittenLoopNeverEnds(bets, k - 1);
      AsWrittenPassKeepsEveryBet(AsWrittenPasses(bets, k - 1));
    }
  }

  // ---------------------------------------------------------------------------
  // The intended pass: take the smallest wager `t` off every remaining wager and
  // keep only those still above zero.

  function SubtractEach<P>(bets: seq<Bet<P>>, t: int): (r: seq<Bet<P>>)
    ensures |r| == |bets| && forall i :: 0 <= i < |bets| ==> r[i] == bets[i].(amount := bets[i].amount - t)
  {
    seq(|bets|, i requires 0 <= i < |bets| => bets[i].(amount := bets[i].amount - t))
  }

  function KeepPositive<P>(bets: seq<Bet<P>>): (r: seq<Bet<P>>)
    ensures |r| <= |bets|
    ensures |bets| > 0 && bets[0].amount <= 0 ==> |r| < |bets|
  {
    if |bets| == 0 then []
    else (if bets[0].amount > 0 then [bets[0]] else []) + KeepPositive(bets[1..])
  }

  function Lowered<P>(bets: seq<Bet<P>>, t: int): seq<Bet<P>>
  {
    KeepPositive(SubtractEach(bets, t))
  }

  /**
   * The pots the intended loop appends, starting from a remaining ledger whose
   * first entry is its smallest, the base carried into the first pot and the
   * previous level.
   */
  function PeelPots<P>(bets: seq<Bet<P>>, base: int, prevLevel: int): seq<Pot<P>>
    decreases |bets|
  {
    if |bets| == 0 then []
    else
      var t := bets[0].amount;
      [PeelStep(bets, base, prevLevel)] + PeelPots(Lowered(bets, t), 0, t + prevLevel)
  }

  /**
   * The splitter loop of hand.py lines 260-274 with the intended peel.
   * DELIBERATE DEVIATION from lines 270-272, which set every remaining wager to
   * zero and keep those at or below zero, so the list never shrinks (see
   * AsWrittenLoopNeverEnds): here the smallest wager is taken off every
   * remaining wager and only those still above zero are kept.
   */
  method SplitPots<P>(ledger: seq<Bet<P>>, carried: Pot<P>) returns (pots: seq<Pot<P>>)
    ensures pots == PeelPots(SortBy(ledger, AmountKey), carried.amount, carried.level)
  {
    var bets := SortBy(ledger, AmountKey);
    ghost var sorted := bets;
    var base, prevLevel := carried.amount, carried.level;
    pots := [];
    while |bets| > 0
      invariant pots + PeelPots(bets, base, prevLevel) == PeelPots(sorted, carried.amount, carried.level)
      decreases |bets|
    {
      var smallest := bets[0].amount;
      var newPot := PeelStep(bets, base, prevLevel);
      ghost var before, done := bets, pots;
      pots := pots + [newPot];
      bets := SubtractFromEach(bets, smallest);
      bets := KeepPositive(bets);
      PeelPotsUnfold(before, base, prevLevel);
      assert PeelPots(before, base, prevLevel) == [newPot] + PeelPots(bets, 0, newPot.level);
      assert pots + PeelPots(bets, 0, newPot.level) == done + PeelPots(before, base, prevLevel);
      prevLevel, base := newPot.level, 0;
    }
  }

  lemma {:induction false} PeelPotsUnfold<P>(bets: seq<Bet<P>>, base: int, prevLevel: int)
    requires |bets| > 0
    ensures PeelPots(bets, base, prevLevel)
         == [PeelStep(bets, base, prevLevel)] + PeelPots(Lowered(bets, bets[0].amount), 0, bets[0].amount + prevLevel)
  {
  }

  /** The inner loop of the peel: every remaining wager loses `t`. */
  method SubtractFromEach<P>(bets: seq<Bet<P>>, t: int) returns (r: seq<Bet<P>>)
    ensures r == SubtractEach(bets, t)
  {
    r := bets;
    for k := 0 to |r|
      invariant |r| == |bets|
      invariant forall i :: 0 <= i < k ==> r[i] == bets[i].(amount := bets[i].amount - t)
      invariant forall i :: k <= i < |r| ==> r[i] == bets[i]
    {
      r := r[k := r[k].(amount := r[k].amount - t)];
    }
  }

  // ---------------------------------------------------------------------------
  // Properties of the intended peel on an ascending ledger.

  lemma {:induction false} SumFront<P>(bets: seq<Bet<P>>)
    requires |bets| > 0
    ensures Sum(bets) == bets[0].amount + Sum(bets[1..])
    decreases |bets|
  {
    if |bets| > 1 {
      SumFront(bets[..|bets| - 1]);
      assert bets[..|bets| - 1][1..] == bets[1..][..|bets| - 2];
    }
  }

  lemma {:induction false} LoweredFront<P>(bets: seq<Bet<P>>, t: int)
    requires |bets| > 0
    ensures Lowered(bets, t) == (if bets[0].amount - t > 0 then [bets[0].(amount := bets[0].amount - t)] else []) + Lowered(bets[1..], t)
  {
    assert SubtractEach(bets, t)[1..] == SubtractEach(bets[1..], t);
  }

  /** Taking `t` off wagers that are all at least `t` removes `t` chips per wager. */
  lemma {:induction false} SumLowered<P>(bets: seq<Bet<P>>, t: int)
    requires forall i :: 0 <= i < |bets| ==> bets[i].amount >= t
    ensures Sum(Lowered(bets, t)) == Sum(bets) - t * |bets|
    decreases |bets|
  {
    if |bets| > 0 {
      LoweredFront(bets, t);
      SumLowered(bets[1..], t);
      SumFront(bets);
      var head := if bets[0].amount - t > 0 then [bets[0].(amount := bets[0].amount - t)] else [];
      SumConcat(head, Lowered(bets[1..], t));
      assert t * |bets| == t + t * (|bets| - 1);
    }
  }

  lemma {:induction false} SumConcat<P>(a: seq<Bet<P>>, b: seq<Bet<P>>)
    ensures Sum(a + b) == Sum(a) + Sum(b)
    decreases |b|
  {
    if |b| > 0 {
      assert (a + b)[..|a + b| - 1] == a + b[..|b| - 1];
      SumConcat(a, b[..|b| - 1]);
    } else {
      assert a + b == a;
    }
  }

  /**
   * On a sorted ledger whose wagers are at least `t`, the intended pass drops
   * a prefix: what remains is a suffix, sorted, with every amount above zero.
   */
  lemma {:induction false} LoweredSuffix<P>(bets: seq<Bet<P>>, t: int)
    requires Ascending(bets)
    requires forall i :: 0 <= i < |bets| ==> bets[i].amount >= t
    ensures LoweredSuffixOf(bets, t)
    decreases |bets|
  {
    if |bets| == 0 {
      assert Lowered(bets, t) == [] == SubtractEach(bets, t);
    } else if bets[0].amount - t > 0 {
      LoweredKeepsAll(bets, t);
    } else {
      AscendingTail(bets);
      LoweredSuffix(bets[1..], t);
      LoweredDropsHead(bets, t);
    }
  }

  /**
   * What the pass leaves of a sorted ledger whose wagers are at least `t`: a
   * suffix of it, each wager lowered by `t`, sorted and above zero.
   */
  ghost predicate LoweredSuffixOf<P>(bets: seq<Bet<P>>, t: int)
  {
    var r := Lowered(bets, t);
    && |r| <= |bets|
    && r == SubtractEach(bets[|bets| - |r|..], t)
    && (forall i :: 0 <= i < |r| ==> r[i].amount > 0)
    && Ascending(r)
  }

  /**
   * LoweredSuffixOf wager by wager, with the wagers the pass drops: those
   * at most `t`.
   */
  lemma {:induction false} LoweredShape<P>(bets: seq<Bet<P>>, t: int)
    requires Ascending(bets)
    requires forall i :: 0 <= i < |bets| ==> bets[i].amount >= t
    ensures var rest := Lowered(bets, t);
      && |rest| <= |bets| && Ascending(rest)
      && (forall i :: 0 <= i < |rest| ==> rest[i] == bets[|bets| - |rest| + i].(amount := bets[|bets| - |rest| + i].amount - t))
      && (forall i :: 0 <= i < |bets| - |rest| ==> bets[i].amount <= t)
      && (forall i :: 0 <= i < |rest| ==> rest[i].amount > 0)
  {
    LoweredSuffix(bets, t);
    LoweredDropsSmall(bets, t);
  }

  lemma {:induction false} LoweredDropsSmall<P>(bets: seq<Bet<P>>, t: int)
    requires Ascending(bets)
    requires forall i :: 0 <= i < |bets| ==> bets[i].amount >= t
    ensures forall i :: 0 <= i < |bets| - |Lowered(bets, t)| ==> bets[i].amount <= t
    decreases |bets|
  {
    if |bets| > 0 {
      LoweredFront(bets, t);
      if bets[0].amount - t <= 0 {
        AscendingTail(bets);
        LoweredDropsSmall(bets[1..], t);
        assert Lowered(bets, t) == Lowered(bets[1..], t);
        forall i | 1 <= i < |bets| - |Lowered(bets, t)|
          ensures bets[i].amount <= t
        {
          assert bets[1..][i - 1] == bets[i];
        }
      } else {
        forall i | 0 <= i < |bets|
          ensures bets[i].amount > t
        {
          assert i == 0 || bets[0].amount <= bets[i].amount;
        }
        AllAboveKept(bets, t);
      }
    }
  }

  /** When the smallest wager is exactly `t`, the pass drops it and treats the rest alone. */
  lemma {:induction false} LoweredDropsHead<P>(bets: seq<Bet<P>>, t: int)
    requires |bets| > 0 && bets[0].amount <= t
    requires LoweredSuffixOf(bets[1..], t)
    ensures LoweredSuffixOf(bets, t)
  {
    var tail := bets[1..];
    var r := Lowered(bets, t);
    assert r == Lowered(tail, t) by {
      LoweredFront(bets, t);
    }
    assert bets[|bets| - |r|..] == tail[|tail| - |r|..] by {
      DropOfTail(bets, |tail| - |r|);
    }
  }

  /** When the smallest wager is above `t`, the pass keeps every wager. */
  lemma {:induction false} LoweredKeepsAll<P>(bets: seq<Bet<P>>, t: int)
    requires Ascending(bets) && |bets| > 0 && bets[0].amount > t
    ensures LoweredSuffixOf(bets, t)
  {
    var r := Lowered(bets, t);
    AllAboveKept(bets, t);
    assert bets[|bets| - |r|..] == bets;
    forall i | 0 <= i < |r|
      ensures r[i].amount > 0
    {
      assert bets[0].amount <= bets[i].amount;
    }
  }

  lemma {:induction false} AscendingTail<P>(bets: seq<Bet<P>>)
    requires Ascending(bets) && |bets| > 0
    ensures Ascending(bets[1..])
  {
    var tail := bets[1..];
    forall i, j | 0 <= i < j < |tail|
      ensures tail[i].amount <= tail[j].amount
    {
      assert tail[i] == bets[i + 1] && tail[j] == bets[j + 1];
    }
  }

  /** The first wager of a sorted ledger is its smallest. */
  lemma {:induction false} AscendingFloor<P>(bets: seq<Bet<P>>)
    requires Ascending(bets) && |bets| > 0
    ensures forall i :: 0 <= i < |bets| ==> bets[i].amount >= bets[0].amount
  {
    forall i | 0 <= i < |bets|
      ensures bets[i].amount >= bets[0].amount
    {
      assert i == 0 || bets[0].amount <= bets[i].amount;
    }
  }

  lemma {:induction false} DropOfTail<T>(s: seq<T>, k: nat)
    requires 0 < |s| && k <= |s| - 1
    ensures s[1..][k..] == s[k + 1..]
  {
  }

  lemma {:induction false} AllAboveKept<P>(bets: seq<Bet<P>>, t: int)
    requires forall i :: 0 <= i < |bets| ==> bets[i].amount > t
    ensures Lowered(bets, t) == SubtractEach(bets, t)
    decreases |bets|
  {
    if |bets| > 0 {
      LoweredFront(bets, t);
      AllAboveKept(bets[1..], t);
      assert SubtractEach(bets, t) == [bets[0].(amount := bets[0].amount - t)] + SubtractEach(bets[1..], t);
    }
  }

  /**
   * Conservation: the pots peeled from a sorted, non-empty ledger hold exactly
   * the carried base plus every chip wagered this round.
   */
  lemma {:induction false} PeelConservesChips<P>(bets: seq<Bet<P>>, base: int, prevLevel: int)
    requires Ascending(bets)
    ensures TotalAmount(PeelPots(bets, base, prevLevel)) == (if |bets| > 0 then base else 0) + Sum(bets)
    decreases |bets|
  {
    if |bets| > 0 {
      var t := bets[0].amount;
      var rest := Lowered(bets, t);
      var tier := t * |bets|;
      assert Sum(rest) == Sum(bets) - tier by {
        SumLowered(bets, t);
      }
      assert Ascending(rest) by {
        LoweredSuffix(bets, t);
      }
      PeelConservesChips(rest, 0, t + prevLevel);
      var pots := PeelPots(bets, base, prevLevel);
      assert pots == [PeelStep(bets, base, prevLevel)] + PeelPots(rest, 0, t + prevLevel);
      assert pots[0].amount == base + tier;
      assert pots[1..] == PeelPots(rest, 0, t + prevLevel);
      assert TotalAmount(pots) == pots[0].amount + TotalAmount(pots[1..]);
    }
  }

  /** On an ascending ledger the largest wager is the last one. */
  lemma {:induction false} AscendingMax<P>(bets: seq<Bet<P>>)
    requires Ascending(bets) && |bets| > 0
    ensures MaxRaise(bets) == bets[|bets| - 1].amount
  {
    var m := MaxRaise(bets);
    var i :| 0 <= i < |bets| && bets[i].amount == m;
  }

  /**
   * The last pot peeled from a sorted, non-empty ledger sits at the previous
   * level plus the largest wager: the same level an equal round reaches.
   */
  lemma {:induction false} PeelLastLevel<P>(bets: seq<Bet<P>>, base: int, prevLevel: int)
    requires Ascending(bets) && |bets| > 0
    ensures var pots := PeelPots(bets, base, prevLevel);
      |pots| > 0 && pots[|pots| - 1].level == prevLevel + MaxRaise(bets)
  {
    AscendingMax(bets);
    PeelLastLevelTop(bets, base, prevLevel);
  }

  lemma {:induction false} PeelLastLevelTop<P>(bets: seq<Bet<P>>, base: int, prevLevel: int)
    requires Ascending(bets) && |bets| > 0
    ensures var pots := PeelPots(bets, base, prevLevel);
      |pots| > 0 && pots[|pots| - 1].level == prevLevel + bets[|bets| - 1].amount
    decreases |bets|
  {
    var t := bets[0].amount;
    var rest := Lowered(bets, t);
    var pots := PeelPots(bets, base, prevLevel);
    PeelPotsUnfold(bets, base, prevLevel);
    var tail := PeelPots(rest, 0, t + prevLevel);
    assert pots == [PeelStep(bets, base, prevLevel)] + tail;
    if |rest| == 0 {
      assert bets[|bets| - 1].amount == t by {
        if bets[|bets| - 1].amount > t {
          LoweredTail(bets, t);
        }
      }
    } else {
      assert Ascending(rest) && rest[|rest| - 1].amount == bets[|bets| - 1].amount - t by {
        LoweredSuffix(bets, t);
      }
      PeelLastLevelTop(rest, 0, t + prevLevel);
      assert pots[|pots| - 1] == tail[|tail| - 1];
    }
  }

  /** When the largest wager is above `t`, it survives the pass. */
  lemma {:induction false} LoweredTail<P>(bets: seq<Bet<P>>, t: int)
    requires |bets| > 0 && bets[|bets| - 1].amount > t
    ensures |Lowered(bets, t)| > 0
    decreases |bets|
  {
    LoweredFront(bets, t);
    if |bets| > 1 {
      LoweredTail(bets[1..], t);
    }
  }

  /**
   * Each pot after the first is open to a strictly shorter tail of the previous
   * pot's players, and the first is open to every owner of the sorted ledger.
   */
  lemma {:induction false} PeelEligibleShrinks<P>(bets: seq<Bet<P>>, base: int, prevLevel: int)
    requires Ascending(bets)
    ensures var pots := PeelPots(bets, base, prevLevel);
      && (|pots| > 0 ==> pots[0].eligible == Owners(bets))
      && Nested(pots)
    decreases |bets|
  {
    if |bets| > 0 {
      var t := bets[0].amount;
      var rest := Lowered(bets, t);
      var first, tail := PeelStep(bets, base, prevLevel), PeelPots(rest, 0, t + prevLevel);
      assert Nested([first] + tail) by {
        assert Ascending(rest) && |rest| < |bets| && Owners(rest) == Owners(bets)[|bets| - |rest|..] by {
          LoweredSuffix(bets, t);
        }
        PeelEligibleShrinks(rest, 0, t + prevLevel);
        NestedCons(first, tail);
      }
      assert PeelPots(bets, base, prevLevel) == [first] + tail by {
        PeelPotsUnfold(bets, base, prevLevel);
      }
    }
  }

  /** Each pot's eligible players are a strictly shorter tail of the previous pot's. */
  ghost predicate Nested<P>(pots: seq<Pot<P>>)
  {
    forall k :: 0 <= k < |pots| - 1 ==>
      var e, e' := pots[k].eligible, pots[k + 1].eligible;
      |e'| < |e| && e' == e[|e| - |e'|..]
  }

  lemma {:induction false} NestedCons<P>(pot: Pot<P>, tail: seq<Pot<P>>)
    requires Nested(tail)
    requires |tail| > 0 ==>
      var e, e' := pot.eligible, tail[0].eligible;
      |e'| < |e| && e' == e[|e| - |e'|..]
    ensures Nested([pot] + tail)
  {
    var pots := [pot] + tail;
    forall k | 0 <= k < |pots| - 1
      ensures var e, e' := pots[k].eligible, pots[k + 1].eligible;
        |e'| < |e| && e' == e[|e| - |e'|..]
    {
      if k > 0 {
        assert pots[k] == tail[k - 1] && pots[k + 1] == tail[k];
      }
    }
  }

  /**
   * A pot is open from `tier` on in a sorted ledger: its players are the
   * owners of exactly the wagers of at least `tier`, and `tier` is the
   * smallest of those wagers.
   */
  ghost predicate OpenFrom<P>(bets: seq<Bet<P>>, pot: Pot<P>, tier: int)
  {
    var e := pot.eligible;
    && 0 < |e| <= |bets| && e == Owners(bets)[|bets| - |e|..]
    && bets[|bets| - |e|].amount == tier
    && forall i :: 0 <= i < |bets| ==> (|bets| - |e| <= i <==> bets[i].amount >= tier)
  }

  /** Every pot of `pots` is open from its tier, its level above `prevLevel`. */
  ghost predicate OpenFromTiers<P>(bets: seq<Bet<P>>, pots: seq<Pot<P>>, prevLevel: int)
  {
    forall k :: 0 <= k < |pots| ==> OpenFrom(bets, pots[k], pots[k].level - prevLevel)
  }

  /**
   * Each pot peeled from a sorted ledger is open to the players who wagered
   * at least its tier.
   */
  lemma {:induction false} PeelEligibility<P>(bets: seq<Bet<P>>, base: int, prevLevel: int)
    requires Ascending(bets)
    ensures OpenFromTiers(bets, PeelPots(bets, base, prevLevel), prevLevel)
    decreases |bets|
  {
    if |bets| > 0 {
      var t := bets[0].amount;
      var rest := Lowered(bets, t);
      var tail := PeelPots(rest, 0, t + prevLevel);
      assert OpenFromTiers(bets, tail, prevLevel) by {
        AscendingFloor(bets);
        LoweredShape(bets, t);
        PeelEligibility(rest, 0, t + prevLevel);
        OpenFromTail(bets, rest, t, tail, prevLevel);
      }
      var first := PeelStep(bets, base, prevLevel);
      OpenFromFirst(bets, base, prevLevel);
      OpenFromCons(bets, first, tail, prevLevel);
      assert PeelPots(bets, base, prevLevel) == [first] + tail by {
        PeelPotsUnfold(bets, base, prevLevel);
      }
    }
  }

  lemma {:induction false} OpenFromCons<P>(bets: seq<Bet<P>>, first: Pot<P>, tail: seq<Pot<P>>, prevLevel: int)
    requires OpenFrom(bets, first, first.level - prevLevel) && OpenFromTiers(bets, tail, prevLevel)
    ensures OpenFromTiers(bets, [first] + tail, prevLevel)
  {
    var pots := [first] + tail;
    assert forall k :: 0 < k < |pots| ==> pots[k] == tail[k - 1];
  }

  /** The first pot peeled from a sorted ledger is open to every owner. */
  lemma {:induction false} OpenFromFirst<P>(bets: seq<Bet<P>>, base: int, prevLevel: int)
    requires Ascending(bets) && |bets| > 0
    ensures OpenFrom(bets, PeelStep(bets, base, prevLevel), bets[0].amount)
  {
    assert Owners(bets)[0..] == Owners(bets);
  }

  /** The pots peeled from what the pass leaves are open from their tiers in the ledger. */
  lemma {:induction false} OpenFromTail<P>(bets: seq<Bet<P>>, rest: seq<Bet<P>>, t: int, tail: seq<Pot<P>>, prevLevel: int)
    requires |rest| <= |bets|
    requires forall i :: 0 <= i < |rest| ==> rest[i] == bets[|bets| - |rest| + i].(amount := bets[|bets| - |rest| + i].amount - t)
    requires forall i :: 0 <= i < |bets| - |rest| ==> bets[i].amount <= t
    requires forall i :: 0 <= i < |rest| ==> rest[i].amount > 0
    requires OpenFromTiers(rest, tail, t + prevLevel)
    ensures OpenFromTiers(bets, tail, prevLevel)
  {
    forall k | 0 <= k < |tail|
      ensures OpenFrom(bets, tail[k], tail[k].level - prevLevel)
    {
      OpenFromShift(bets, rest, t, tail[k], tail[k].level - (t + prevLevel));
    }
  }

  /** A pot open from `tier` in what the pass leaves is open from `tier + t` in the ledger. */
  lemma {:induction false} OpenFromShift<P>(bets: seq<Bet<P>>, rest: seq<Bet<P>>, t: int, pot: Pot<P>, tier: int)
    requires |rest| <= |bets|
    requires forall i :: 0 <= i < |rest| ==> rest[i] == bets[|bets| - |rest| + i].(amount := bets[|bets| - |rest| + i].amount - t)
    requires forall i :: 0 <= i < |bets| - |rest| ==> bets[i].amount <= t
    requires forall i :: 0 <= i < |rest| ==> rest[i].amount > 0
    requires OpenFrom(rest, pot, tier)
    ensures OpenFrom(bets, pot, tier + t)
  {
    var e, d := pot.eligible, |bets| - |rest|;
    assert bets[|bets| - |e|].amount == tier + t by {
      assert rest[|rest| - |e|].amount == tier;
    }
    assert e == Owners(bets)[|bets| - |e|..] by {
      forall q | 0 <= q < |e|
        ensures e[q] == bets[|bets| - |e| + q].who
      {
        assert e[q] == rest[|rest| - |e| + q].who;
      }
    }
    forall i | 0 <= i < |bets|
      ensures |bets| - |e| <= i <==> bets[i].amount >= tier + t
    {
      if i >= d {
        assert rest[i - d].amount == bets[i].amount - t;
      }
    }
  }

  /** The tiers of a list of pots: their levels above `prevLevel`. */
  ghost function Tiers<P>(pots: seq<Pot<P>>, prevLevel: int): set<int>
  {
    set k | 0 <= k < |pots| :: pots[k].level - prevLevel
  }

  /** The distinct amounts wagered. */
  ghost function Amounts<P>(bets: seq<Bet<P>>): set<int>
  {
    set i | 0 <= i < |bets| :: bets[i].amount
  }

  /** Each pot sits at a higher level than the pot before it. */
  ghost predicate LevelsRise<P>(pots: seq<Pot<P>>)
  {
    forall k, j :: 0 <= k < j < |pots| ==> pots[k].level < pots[j].level
  }

  /**
   * A sorted ledger is peeled into one pot per distinct amount wagered, in
   * rising order of level: the tiers of the pots are exactly the amounts.
   */
  lemma {:induction false} PeelTiers<P>(bets: seq<Bet<P>>, base: int, prevLevel: int)
    requires Ascending(bets)
    ensures Tiers(PeelPots(bets, base, prevLevel), prevLevel) == Amounts(bets)
    ensures LevelsRise(PeelPots(bets, base, prevLevel))
    decreases |bets|
  {
    if |bets| > 0 {
      var t := bets[0].amount;
      var rest := Lowered(bets, t);
      var tail := PeelPots(rest, 0, t + prevLevel);
      AscendingFloor(bets);
      LoweredShape(bets, t);
      PeelTiers(rest, 0, t + prevLevel);
      var first := PeelStep(bets, base, prevLevel);
      TiersShift(bets, rest, t, first, tail, prevLevel);
      assert PeelPots(bets, base, prevLevel) == [first] + tail by {
        PeelPotsUnfold(bets, base, prevLevel);
      }
    }
  }

  /**
   * The step of PeelTiers: a first pot at tier `t` followed by pots whose
   * tiers above `t` are the amounts left by the pass.
   */
  lemma {:induction false} TiersShift<P>(bets: seq<Bet<P>>, rest: seq<Bet<P>>, t: int, first: Pot<P>, tail: seq<Pot<P>>, prevLevel: int)
    requires |rest| <= |bets| && first.level == t + prevLevel
    requires forall i :: 0 <= i < |rest| ==> rest[i] == bets[|bets| - |rest| + i].(amount := bets[|bets| - |rest| + i].amount - t)
    requires forall i :: 0 <= i < |bets| - |rest| ==> bets[i].amount <= t
    requires forall i :: 0 <= i < |rest| ==> rest[i].amount > 0
    requires forall i :: 0 <= i < |bets| ==> bets[i].amount >= t
    requires |bets| > 0 && bets[0].amount == t
    requires Tiers(tail, t + prevLevel) == Amounts(rest) && LevelsRise(tail)
    ensures Tiers([first] + tail, prevLevel) == Amounts(bets)
    ensures LevelsRise([first] + tail)
  {
    var pots, d := [first] + tail, |bets| - |rest|;
    assert forall k :: 0 < k < |pots| ==> pots[k] == tail[k - 1];
    forall x | x in Tiers(pots, prevLevel)
      ensures x in Amounts(bets)
    {
      var k :| 0 <= k < |pots| && pots[k].level - prevLevel == x;
      if k > 0 {
        assert x - t in Tiers(tail, t + prevLevel);
        var j :| 0 <= j < |rest| && rest[j].amount == x - t;
        assert bets[d + j].amount == x;
      }
    }
    forall x | x in Amounts(bets)
      ensures x in Tiers(pots, prevLevel)
    {
      var i :| 0 <= i < |bets| && bets[i].amount == x;
      if x != t {
        assert rest[i - d].amount == x - t;
        assert x - t in Amounts(rest);
        var k :| 0 <= k < |tail| && tail[k].level - (t + prevLevel) == x - t;
        assert pots[k + 1].level - prevLevel == x;
      }
    }
    forall k | 0 < k < |pots|
      ensures pots[0].level < pots[k].level
    {
      assert tail[k - 1].level - (t + prevLevel) in Tiers(tail, t + prevLevel);
      var j :| 0 <= j < |rest| && rest[j].amount == tail[k - 1].level - (t + prevLevel);
    }
  }

  /** Pots at rising levels have as many tiers as pots. */
  lemma {:induction false} RisingTiersCount<P>(pots: seq<Pot<P>>, prevLevel: int)
    requires LevelsRise(pots)
    ensures |Tiers(pots, prevLevel)| == |pots|
    decreases |pots|
  {
    if |pots| > 0 {
      var tail := pots[1..];
      assert LevelsRise(tail) by {
        assert forall k :: 0 <= k < |tail| ==> tail[k] == pots[k + 1];
      }
      RisingTiersCount(tail, prevLevel);
      TiersCons(pots, prevLevel);
      assert pots[0].level - prevLevel !in Tiers(tail, prevLevel) by {
        assert forall k :: 0 <= k < |tail| ==> tail[k] == pots[k + 1];
      }
    }
  }

  lemma {:induction false} TiersCons<P>(pots: seq<Pot<P>>, prevLevel: int)
    requires |pots| > 0
    ensures Tiers(pots, prevLevel) == {pots[0].level - prevLevel} + Tiers(pots[1..], prevLevel)
  {
    var tail := pots[1..];
    forall x | x in Tiers(pots, prevLevel)
      ensures x in {pots[0].level - prevLevel} + Tiers(tail, prevLevel)
    {
      var k :| 0 <= k < |pots| && pots[k].level - prevLevel == x;
      if k > 0 {
        assert tail[k - 1] == pots[k];
      }
    }
  }

  /** The number of pots peeled from a sorted ledger is the number of distinct amounts wagered. */
  lemma {:induction false} PeelCount<P>(bets: seq<Bet<P>>, base: int, prevLevel: int)
    requires Ascending(bets)
    ensures |PeelPots(bets, base, prevLevel)| == |Amounts(bets)|
  {
    PeelTiers(bets, base, prevLevel);
    RisingTiersCount(PeelPots(bets, base, prevLevel), prevLevel);
  }

  /**
   * The worked example of a round against an empty carried pot: A goes all in
   * for 30, B and C wager 80 each.
   */
  lemma {:induction false} ThreeWayAllInExample()
    ensures PeelPots([Bet(30, "A"), Bet(80, "B"), Bet(80, "C")], 0, 0)
         == [Pot(90, 30, ["A", "B", "C"]), Pot(100, 80, ["B", "C"])]
  {
    var bets := [Bet(30, "A"), Bet(80, "B"), Bet(80, "C")];
    var rest := [Bet(50, "B"), Bet(50, "C")];
    ExampleFirstPass();
    ExampleSecondPass();
    assert Owners(bets) == ["A", "B", "C"];
    assert Owners(rest) == ["B", "C"];
    PeelPotsUnfold(bets, 0, 0);
    PeelPotsUnfold(rest, 0, 30);
    assert PeelPots(rest, 0, 30) == [Pot(100, 80, ["B", "C"])] + PeelPots([], 0, 80);
  }

  lemma {:induction false} ExampleFirstPass()
    ensures Lowered([Bet(30, "A"), Bet(80, "B"), Bet(80, "C")], 30) == [Bet(50, "B"), Bet(50, "C")]
  {
    var rest := [Bet(50, "B"), Bet(50, "C")];
    assert SubtractEach([Bet(30, "A"), Bet(80, "B"), Bet(80, "C")], 30) == [Bet(0, "A")] + rest;
    assert KeepPositive(rest[1..]) == rest[1..];
    assert KeepPositive(rest) == rest;
  }

  lemma {:induction false} ExampleSecondPass()
    ensures Lowered([Bet(50, "B"), Bet(50, "C")], 50) == []
  {
    assert SubtractEach([Bet(50, "B"), Bet(50, "C")], 50) == [Bet(0, "B"), Bet(0, "C")];
  }
}
