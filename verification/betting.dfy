/**
 * The pure rules of a betting round: which seat posts which blind
 * (`assign_blinds`, hand.py lines 161-186), how much a call commits
 * (`call_bet`, lines 283-285), and which action the turn loop accepts
 * (lines 226-246 with `raise_bet`'s affordability test, lines 293-298).
 */
module Betting {
  import opened Outcomes
  import opened Ledger
  import opened Actions
  import opened Turns

  datatype Blind = BigBlind | SmallBlind | NoBlind

  /**
   * The blind posted by seat `i` of `n` when the round starts at `start`
   * (hand.py lines 168 and 175-184); the big blind is tested first.
   */
  function BlindAt(i: nat, n: nat, start: nat): Blind
    requires i < n
  {
    if i == (start - 1) % n then BigBlind
    else if n > 2 && i == (start - 2) % n then SmallBlind
    else NoBlind
  }

  function BlindAmount(b: Blind, small: int, big: int): int
  {
    match b
    case BigBlind => big
    case SmallBlind => small
    case NoBlind => 0
  }

  /** The seats posting blind `b`. */
  function BlindSeats(n: nat, start: nat, b: Blind): set<nat>
  {
    set i | 0 <= i < n && BlindAt(i, n, start) == b
  }

  /**
   * The big blind is posted by exactly one seat, the one before the start
   * seat; the small blind only when more than two players take part, by the
   * seat before the big blind. The start seat is at most `n` once
   * `assign_blinds` has checked it.
   */
  lemma {:induction false} BlindPositions(n: nat, start: nat)
    requires 0 < n && start <= n
    ensures BlindSeats(n, start, BigBlind) == {PrevSeat(start, n)}
    ensures BlindSeats(n, start, SmallBlind) == if n > 2 then {PrevSeat(PrevSeat(start, n), n)} else {}
  {
    var big := PrevSeat(start, n);
    if n > 2 {
      PrevTwice(start, n);
      assert PrevSeat(big, n) != big;
      assert BlindAt(PrevSeat(big, n), n, start) == SmallBlind;
    }
    assert BlindAt(big, n, start) == BigBlind;
  }

  lemma {:induction false} PrevTwice(start: nat, n: nat)
    requires 2 < n && start <= n
    ensures (start - 2) % n == PrevSeat(PrevSeat(start, n), n)
  {
    SmallMod(start - 1, n);
    SmallMod(start - 2, n);
    SmallMod(PrevSeat(start, n) - 1, n);
  }

  /** `%` on a value less than one lap away from the range of seats. */
  lemma {:induction false} SmallMod(x: int, n: nat)
    requires 0 < n && -(n as int) <= x < n
    ensures x % n == if x < 0 then x + n else x
  {
  }

  /** Which blind each of `n` seats posts. */
  function SeatBlinds(n: nat, start: nat): (bs: seq<Blind>)
    ensures |bs| == n && forall i :: 0 <= i < n ==> bs[i] == BlindAt(i, n, start)
  {
    seq(n, i requires 0 <= i < n => BlindAt(i, n, start))
  }

  /** The wagers of the first `k` seats when seat `i` posts blind `bs[i]`, in seat order. */
  function Posted<P>(ps: seq<P>, bs: seq<Blind>, k: nat, small: int, big: int): seq<Bet<P>>
    requires k <= |ps| && |bs| == |ps|
  {
    if k == 0 then []
    else
      Posted(ps, bs, k - 1, small, big)
        + (if bs[k - 1] == NoBlind then [] else [Bet(BlindAmount(bs[k - 1], small, big), ps[k - 1])])
  }

  /** The blind wagers of the first `k` seats, in seat order (the list `bets` of `assign_blinds`). */
  function BlindBets<P>(ps: seq<P>, k: nat, start: nat, small: int, big: int): seq<Bet<P>>
    requires k <= |ps|
  {
    Posted(ps, SeatBlinds(|ps|, start), k, small, big)
  }

  /**
   * What the blinds of the first `k` seats add up to, that they are all
   * big or small blinds, that each is owned by one of those seats, and that
   * the big blind is among them once its seat is reached.
   */
  lemma {:induction false} BlindBetsPrefix<P>(ps: seq<P>, k: nat, start: nat, small: int, big: int)
    requires 0 < |ps| && k <= |ps| && start <= |ps|
    ensures var r, n := BlindBets(ps, k, start, small, big), |ps|;
      && Sum(r) == (if PrevSeat(start, n) < k then big else 0)
                 + (if n > 2 && PrevSeat(PrevSeat(start, n), n) < k then small else 0)
      && (forall j :: 0 <= j < |r| ==> r[j].amount == big || r[j].amount == small)
      && (PrevSeat(start, n) < k ==> Bet(big, ps[PrevSeat(start, n)]) in r)
    decreases k
  {
    var n := |ps|;
    if k > 0 {
      BlindBetsPrefix(ps, k - 1, start, small, big);
      BlindPositions(n, start);
      var b := BlindAt(k - 1, n, start);
      var prev := BlindBets(ps, k - 1, start, small, big);
      var r := BlindBets(ps, k, start, small, big);
      assert b == BigBlind <==> k - 1 in BlindSeats(n, start, BigBlind);
      assert b == SmallBlind <==> k - 1 in BlindSeats(n, start, SmallBlind);
      if b != NoBlind {
        SumConcatOne(prev, Bet(BlindAmount(b, small, big), ps[k - 1]));
      } else {
        assert r == prev;
      }
    }
  }

  lemma {:induction false} SumConcatOne<P>(s: seq<Bet<P>>, b: Bet<P>)
    ensures Sum(s + [b]) == Sum(s) + b.amount
  {
    assert (s + [b])[..|s|] == s;
  }

  /**
   * The ledger the blinds open a round with: the big blind plus, with more
   * than two players, the small blind; when the small blind is at most the
   * big one the level to match is the big blind; and one wager per player.
   */
  lemma {:induction false} BlindLedger<P>(ps: seq<P>, start: nat, small: int, big: int)
    requires |ps| > 0 && start <= |ps| && small <= big
    ensures var r := BlindBets(ps, |ps|, start, small, big);
      && Sum(r) == big + (if |ps| > 2 then small else 0)
      && MaxRaise(r) == big
      && (forall j :: 0 <= j < |r| ==> r[j].who in ps)
      && ((forall i, j :: 0 <= i < j < |ps| ==> ps[i] != ps[j]) ==> DistinctOwners(r))
  {
    var r := BlindBets(ps, |ps|, start, small, big);
    BlindBetsPrefix(ps, |ps|, start, small, big);
    PostedOwners(ps, SeatBlinds(|ps|, start), |ps|, small, big);
    assert ps[..|ps|] == ps;
    var j :| 0 <= j < |r| && r[j] == Bet(big, ps[PrevSeat(start, |ps|)]);
    if forall i, j :: 0 <= i < j < |ps| ==> ps[i] != ps[j] {
      PostedOwnersDistinct(ps, SeatBlinds(|ps|, start), |ps|, small, big);
    }
  }

  /**
   * Each posted wager of the first `k` seats belongs to a player, and, when
   * the players are distinct, to none of the seats from `k` on.
   */
  lemma {:induction false} PostedOwners<P>(ps: seq<P>, bs: seq<Blind>, k: nat, small: int, big: int)
    requires k <= |ps| && |bs| == |ps|
    ensures OwnedWithin(Posted(ps, bs, k, small, big), ps)
    ensures (forall i, j :: 0 <= i < j < |ps| ==> ps[i] != ps[j]) ==>
      AvoidsFrom(Posted(ps, bs, k, small, big), ps, k)
    decreases k
  {
    if k > 0 {
      PostedOwners(ps, bs, k - 1, small, big);
      var prev := Posted(ps, bs, k - 1, small, big);
      if bs[k - 1] != NoBlind {
        var bet := Bet(BlindAmount(bs[k - 1], small, big), ps[k - 1]);
        OwnersAppend(prev, bet, ps);
        if forall i, j :: 0 <= i < j < |ps| ==> ps[i] != ps[j] {
          AvoidsAppend(prev, bet, ps, k);
        }
      }
    }
  }

  /** Distinct players post wagers with distinct owners. */
  lemma {:induction false} PostedOwnersDistinct<P>(ps: seq<P>, bs: seq<Blind>, k: nat, small: int, big: int)
    requires k <= |ps| && |bs| == |ps|
    requires forall i, j :: 0 <= i < j < |ps| ==> ps[i] != ps[j]
    ensures DistinctOwners(Posted(ps, bs, k, small, big))
    decreases k
  {
    if k > 0 {
      PostedOwnersDistinct(ps, bs, k - 1, small, big);
      PostedOwners(ps, bs, k - 1, small, big);
      var prev := Posted(ps, bs, k - 1, small, big);
      if bs[k - 1] != NoBlind {
        assert forall j :: 0 <= j < |prev| ==> prev[j].who != ps[k - 1];
        DistinctAppend(prev, Bet(BlindAmount(bs[k - 1], small, big), ps[k - 1]));
      }
    }
  }

  /**
   * With distinct players, each player's entry in the posted wagers is the
   * blind of their seat once that seat is reached, and nothing before.
   */
  lemma {:induction false} PostedAmounts<P>(ps: seq<P>, bs: seq<Blind>, i: nat, small: int, big: int, k: nat)
    requires i <= |ps| && |bs| == |ps| && k < |ps|
    requires forall x, y :: 0 <= x < y < |ps| ==> ps[x] != ps[y]
    ensures AmountOf(Posted(ps, bs, i, small, big), ps[k]) == if k < i then BlindAmount(bs[k], small, big) else 0
    decreases i
  {
    var r := Posted(ps, bs, i, small, big);
    if i == 0 {
    } else {
      PostedAmounts(ps, bs, i - 1, small, big, k);
      PostedOwners(ps, bs, i - 1, small, big);
      var prev := Posted(ps, bs, i - 1, small, big);
      if k >= i - 1 {
        assert !HasEntry(prev, ps[k]) by {
          assert AvoidsFrom(prev, ps, i - 1);
        }
      }
      if bs[i - 1] != NoBlind {
        var b := Bet(BlindAmount(bs[i - 1], small, big), ps[i - 1]);
        AmountOfAppend(prev, b, ps[k]);
        if !HasEntry(prev, ps[k]) {
          assert AmountOf(prev, ps[k]) == 0;
        }
      } else {
        assert r == prev;
        if k == i - 1 {
          AmountOfAppend(prev, Bet(0, ps[k]), ps[k]);
        }
      }
    }
  }

  /** Every wager belongs to one of `ps`. */
  ghost predicate OwnedWithin<P>(s: seq<Bet<P>>, ps: seq<P>)
  {
    forall j :: 0 <= j < |s| ==> s[j].who in ps
  }

  /** No wager belongs to any of `ps[k..]`. */
  ghost predicate AvoidsFrom<P>(s: seq<Bet<P>>, ps: seq<P>, k: nat)
  {
    forall j, i :: 0 <= j < |s| && k <= i < |ps| ==> s[j].who != ps[i]
  }

  lemma {:induction false} OwnersAppend<P>(s: seq<Bet<P>>, b: Bet<P>, ps: seq<P>)
    requires OwnedWithin(s, ps) && b.who in ps
    ensures OwnedWithin(s + [b], ps)
  {
  }

  lemma {:induction false} AvoidsAppend<P>(s: seq<Bet<P>>, b: Bet<P>, ps: seq<P>, k: nat)
    requires k > 0 && AvoidsFrom(s, ps, k - 1)
    requires forall i :: k <= i < |ps| ==> b.who != ps[i]
    ensures AvoidsFrom(s + [b], ps, k)
  {
  }

  lemma {:induction false} DistinctAppend<P>(s: seq<Bet<P>>, b: Bet<P>)
    requires DistinctOwners(s) && forall j :: 0 <= j < |s| ==> s[j].who != b.who
    ensures DistinctOwners(s + [b])
  {
  }

  /**
   * What `call_bet` commits (hand.py line 285): the gap to the current level,
   * or everything the player holds when that is less.
   */
  function CallAmount(gap: int, holdings: int): (d: int)
    ensures d <= gap && d <= holdings
    ensures d == gap || d == holdings
  {
    if gap <= holdings then gap else holdings
  }

  /** What an accepted action does: the player folds, or pays `amount` into the pot, raising or not. */
  datatype Move = Folds | Pays(amount: int, raises: bool)

  /**
   * How the turn loop answers `action` from a player holding `holdings` who
   * is `gap` short of the level (hand.py lines 231-246): Fold and Call are
   * always taken, a call paying the gap or all the player holds; a
   * well-formed offered raise is taken only when the player can pay the gap
   * plus the raise (lines 296-298). Anything else is refused (`None`) and the
   * player is asked again.
   */
  function MoveOf(action: string, options: seq<string>, gap: int, holdings: int): (m: Option<Move>)
    ensures m == Some(Folds) <==> action == "Fold"
    ensures m.Some? && m.value.Pays? && !m.value.raises <==> action == "Call"
    ensures m.Some? && m.value.Pays? && m.value.raises ==> m.value.amount <= holdings && "Raise" in options
    ensures m.Some? && m.value.Pays? ==> m.value.amount <= holdings || m.value.amount == gap
    ensures m.None? <==> Classify(action, options) == Rejected
                         || (Classify(action, options).ChooseRaise? && holdings < gap + Classify(action, options).amount)
  {
    match Classify(action, options)
    case ChooseFold => Some(Folds)
    case ChooseCall => Some(Pays(CallAmount(gap, holdings), false))
    case ChooseRaise(n) => if holdings >= gap + n then Some(Pays(gap + n, true)) else None
    case Rejected => None
  }

  /** An offered raise of a readable amount is the move that pays the gap plus that amount, when the player can afford it. */
  lemma {:induction false} RaiseMove(action: string, options: seq<string>, gap: int, holdings: int)
    requires Classify(action, options).ChooseRaise?
    ensures var n := Classify(action, options).amount;
      && GetRaiseAmount(action) == Ok(n)
      && MoveOf(action, options, gap, holdings) == if holdings < gap + n then None else Some(Pays(gap + n, true))
  {
  }

  predicate Accepts(action: string, options: seq<string>, gap: int, holdings: int)
  {
    MoveOf(action, options, gap, holdings).Some?
  }

  /** The first action from position `from` on that the turn loop accepts; `|actions|` when there is none. */
  function FirstAccepted(actions: seq<string>, from: nat, options: seq<string>, gap: int, holdings: int): (k: nat)
    requires from <= |actions|
    ensures from <= k <= |actions|
    ensures k < |actions| ==> Accepts(actions[k], options, gap, holdings)
    ensures forall j :: from <= j < k ==> !Accepts(actions[j], options, gap, holdings)
    decreases |actions| - from
  {
    if from == |actions| then from
    else if Accepts(actions[from], options, gap, holdings) then from
    else FirstAccepted(actions, from + 1, options, gap, holdings)
  }
}
