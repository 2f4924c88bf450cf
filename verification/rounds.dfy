/**
 * The turn loop of a betting round, on values (hand.py lines 201-253): what
 * a turn does to a player's stake and to the round's ledger, one seat's part
 * of a pass of the loop, and the loop itself from the start seat until the
 * round ends or the players' actions run out.
 */
module Rounds {
  import opened Outcomes
  import opened Ledger
  import opened Actions
  import opened Turns
  import opened Players
  import opened Betting

  /**
   * What a turn does to the player who takes it: nothing when no action was
   * accepted (`None`), the fold flag for a fold, and for a payment the amount
   * moves from the holdings to the bet.
   */
  function Moved(st: Stake, m: Option<Move>): Stake
  {
    match m
    case None => st
    case Some(Folds) => st.(folded := true)
    case Some(Pays(d, _)) => Paid(st, d)
  }

  /** `bet(amount)`: the amount moves from the holdings to the bet. */
  function Paid(st: Stake, amount: int): Stake
  {
    st.(holdings := st.holdings - amount, betAmount := st.betAmount + amount)
  }

  /** What a turn does to the round's ledger: a payment is recorded against the player. */
  function Logged(ledger: seq<Bet<HandPlayer>>, p: HandPlayer, m: Option<Move>): seq<Bet<HandPlayer>>
  {
    match m
    case Some(Pays(d, _)) => Recorded(ledger, p, d)
    case _ => ledger
  }

  /** What `call_bet` does, read as a move: the call is always taken and pays what `CallAmount` says. */
  lemma {:induction false} CallOutcome(action: string, options: seq<string>, gap: int, holdings: int,
                                       diff: int, st: Stake, st': Stake,
                                       ledger: seq<Bet<HandPlayer>>, ledger': seq<Bet<HandPlayer>>, p: HandPlayer)
    requires Classify(action, options) == ChooseCall
    requires diff == CallAmount(gap, holdings)
    requires st' == Paid(st, diff) && ledger' == Recorded(ledger, p, diff)
    ensures var m := MoveOf(action, options, gap, holdings);
      && m.Some? && !Raises(m)
      && st' == Moved(st, m)
      && ledger' == Logged(ledger, p, m)
  {
    assert MoveOf(action, options, gap, holdings) == Some(Pays(diff, false));
  }

  /**
   * What `raise_bet` reports, read as a move: a refused raise changes nothing,
   * an accepted one pays the gap plus the raise and records it.
   */
  lemma {:induction false} RaiseOutcome(action: string, options: seq<string>, gap: int, holdings: int,
                                        r: Result<int, RaiseFault>, st: Stake, st': Stake,
                                        ledger: seq<Bet<HandPlayer>>, ledger': seq<Bet<HandPlayer>>, p: HandPlayer)
    requires Classify(action, options).ChooseRaise?
    requires r == match GetRaiseAmount(action)
                  case Err(e) => Err(e)
                  case Ok(n) => if holdings < gap + n then Err(CannotAfford) else Ok(gap + n)
    requires r.Err? ==> st' == st && ledger' == ledger
    requires r.Ok? ==> st' == Paid(st, r.value) && ledger' == Recorded(ledger, p, r.value)
    ensures var m := MoveOf(action, options, gap, holdings);
      && r.Ok? == m.Some? && (r.Ok? ==> Raises(m))
      && st' == Moved(st, m)
      && ledger' == Logged(ledger, p, m)
  {
    RaiseMove(action, options, gap, holdings);
  }

  predicate Raises(m: Option<Move>)
  {
    m.Some? && m.value.Pays? && m.value.raises
  }

  /**
   * Whatever the move, a turn keeps the player's holdings plus bet, never
   * clears a fold, and grows the player's ledger entry by exactly what their
   * bet grows, leaving every other player's entry alone.
   */
  lemma {:induction false} TurnAccounts(st: Stake, m: Option<Move>, ledger: seq<Bet<HandPlayer>>, p: HandPlayer, w: HandPlayer)
    ensures var after := Moved(st, m);
      && after.holdings + after.betAmount == st.holdings + st.betAmount
      && (st.folded ==> after.folded)
      && AmountOf(Logged(ledger, p, m), p) - AmountOf(ledger, p) == after.betAmount - st.betAmount
      && (w != p ==> AmountOf(Logged(ledger, p, m), w) == AmountOf(ledger, w))
  {
    if m.Some? && m.value.Pays? && w != p {
      RecordedLeavesOthers(ledger, p, m.value.amount, w);
    }
  }

  /**
   * What the turns of a round have done so far to the players `ps`, who held
   * `s0` when the turns began and hold `s` now, with the round's ledger grown
   * from `l0` to `l` and `prompted` the ids of the players asked to act:
   * chips only move from a player's holdings to their bet, a fold is never
   * undone, each player's ledger entry has grown by exactly what their bet
   * has, only prompted players have changed, and nobody was prompted who had
   * folded or had no money. The ledger keeps one entry per player, each
   * belonging to a player of `ps`.
   */
  ghost predicate RoundSoFar(ps: seq<HandPlayer>, s0: seq<Stake>, s: seq<Stake>,
                             l0: seq<Bet<HandPlayer>>, l: seq<Bet<HandPlayer>>, prompted: set<nat>)
  {
    && |s0| == |ps| && |s| == |ps|
    && (forall k :: 0 <= k < |ps| ==> s[k].holdings + s[k].betAmount == s0[k].holdings + s0[k].betAmount)
    && (forall k :: 0 <= k < |ps| ==> s0[k].folded ==> s[k].folded)
    && (forall k :: 0 <= k < |ps| ==> AmountOf(l, ps[k]) - AmountOf(l0, ps[k]) == s[k].betAmount - s0[k].betAmount)
    && (forall k :: 0 <= k < |ps| ==> ps[k].id !in prompted ==> s[k] == s0[k])
    && (forall k :: 0 <= k < |ps| ==> ps[k].id in prompted ==> !s0[k].folded && s0[k].holdings > 0)
    && (forall j :: 0 <= j < |l| ==> l[j].who in ps)
    && DistinctOwners(l)
  }

  /** A turn taken by an unfolded player with money at seat `c` keeps the round's record. */
  lemma {:induction false} TurnKeepsRound(ps: seq<HandPlayer>, s0: seq<Stake>, s: seq<Stake>, l0: seq<Bet<HandPlayer>>,
                       l: seq<Bet<HandPlayer>>, prompted: set<nat>, c: nat, m: Option<Move>)
    requires RoundSoFar(ps, s0, s, l0, l, prompted)
    requires DistinctIds(ps) && c < |ps| && !s[c].folded && s[c].holdings > 0
    ensures RoundSoFar(ps, s0, s[c := Moved(s[c], m)], l0, Logged(l, ps[c], m), prompted + {ps[c].id})
  {
    var s1, l1, pr := s[c := Moved(s[c], m)], Logged(l, ps[c], m), prompted + {ps[c].id};
    forall k | 0 <= k < |ps|
      ensures AmountOf(l1, ps[k]) - AmountOf(l0, ps[k]) == s1[k].betAmount - s0[k].betAmount
      ensures s1[k].holdings + s1[k].betAmount == s0[k].holdings + s0[k].betAmount
      ensures s0[k].folded ==> s1[k].folded
      ensures ps[k].id !in pr ==> s1[k] == s0[k]
      ensures ps[k].id in pr ==> !s0[k].folded && s0[k].holdings > 0
    {
      TurnAccounts(s[c], m, l, ps[c], ps[k]);
      if k != c {
        assert ps[k].id != ps[c].id;
        assert s1[k] == s[k];
      }
    }
    if m.Some? && m.value.Pays? {
      RecordedOwnersWithin(l, ps[c], m.value.amount, ps);
    }
  }


  /**
   * What the turn loop carries from seat to seat: the players' stakes, the
   * round's ledger, the ids of the players prompted so far (`has_bet`) and
   * the position of the next unread action.
   */
  datatype Progress = Progress(stakes: seq<Stake>, ledger: seq<Bet<HandPlayer>>, hasBet: set<nat>, next: nat)

  /** One seat's part of a pass: the progress after it, whether it raised, and whether the actions ran out on it. */
  datatype SeatOutcome = SeatOutcome(after: Progress, raised: bool, stalled: bool)

  /** Where the turn loop stops: the progress, the seat it stopped at, the seat that ends the round, and whether the actions ran out. */
  datatype RoundResult = RoundResult(after: Progress, current: nat, roundEnd: nat, stalled: bool)

  /** The ids of the players. */
  function Ids(ps: seq<HandPlayer>): set<nat>
  {
    set k | 0 <= k < |ps| :: ps[k].id
  }

  /** A player who has folded or has no money is skipped by the turn loop (hand.py line 213). */
  predicate Idle(st: Stake)
  {
    st.folded || st.holdings <= 0
  }

  /**
   * The turn of the player at seat `c` who has not folded and has money
   * (hand.py lines 214-248): they are offered their options at the pot's
   * level `level` and the prompted players `p.hasBet`, and take the first
   * action from position `p.next` on that is accepted, the gap to call
   * being the level plus the round's largest wager less their bet. They are
   * recorded as prompted whether or not an action is accepted. When none
   * is, the actions have run out and only that record changes; otherwise
   * the reading position moves past the accepted action, and only this
   * player's stake changes.
   */
  function Prompted(ps: seq<HandPlayer>, level: int, actions: seq<string>, p: Progress, c: nat): (r: SeatOutcome)
    requires c < |ps| == |p.stakes| && p.next <= |actions|
    ensures |r.after.stakes| == |ps| && r.after.hasBet == p.hasBet + {ps[c].id}
    ensures r.stalled ==> r.after == p.(hasBet := p.hasBet + {ps[c].id}) && !r.raised
    ensures !r.stalled ==> p.next < r.after.next <= |actions|
    ensures r.raised ==> ps[c].id !in p.hasBet
    ensures forall k :: 0 <= k < |ps| && k != c ==> r.after.stakes[k] == p.stakes[k]
  {
    var st := p.stakes[c];
    var options := GetPlayersOptions(ps[c].id, st.holdings, st.betAmount, level, p.hasBet);
    var gap := level + MaxRaise(p.ledger) - st.betAmount;
    var taken := FirstAccepted(actions, p.next, options, gap, st.holdings);
    var m := if taken < |actions| then MoveOf(actions[taken], options, gap, st.holdings) else None;
    assert m.None? ==> p.stakes[c := Moved(st, m)] == p.stakes;
    SeatOutcome(Progress(p.stakes[c := Moved(st, m)], Logged(p.ledger, ps[c], m), p.hasBet + {ps[c].id},
                         if taken < |actions| then taken + 1 else p.next),
                Raises(m), taken == |actions|)
  }

  /** `Prompted` for a turn whose accepted action, if any, is at position `taken` and makes the move `m`. */
  lemma {:induction false} PromptedIs(ps: seq<HandPlayer>, level: int, actions: seq<string>, p: Progress, c: nat,
                                      options: seq<string>, gap: int, taken: nat, m: Option<Move>)
    requires c < |ps| == |p.stakes| && p.next <= |actions|
    requires options == GetPlayersOptions(ps[c].id, p.stakes[c].holdings, p.stakes[c].betAmount, level, p.hasBet)
    requires gap == level + MaxRaise(p.ledger) - p.stakes[c].betAmount
    requires taken == FirstAccepted(actions, p.next, options, gap, p.stakes[c].holdings)
    requires m == if taken < |actions| then MoveOf(actions[taken], options, gap, p.stakes[c].holdings) else None
    ensures Prompted(ps, level, actions, p, c)
         == SeatOutcome(Progress(p.stakes[c := Moved(p.stakes[c], m)], Logged(p.ledger, ps[c], m), p.hasBet + {ps[c].id},
                                 if taken < |actions| then taken + 1 else p.next),
                        Raises(m), taken == |actions|)
  {
  }

  /**
   * Seat `c`'s part of one pass of the turn loop (hand.py lines 212-248): an
   * idle player is skipped and nothing changes; anyone else is prompted.
   */
  function SeatStep(ps: seq<HandPlayer>, level: int, actions: seq<string>, p: Progress, c: nat): (r: SeatOutcome)
    requires c < |ps| == |p.stakes| && p.next <= |actions|
    ensures |r.after.stakes| == |ps| && p.next <= r.after.next <= |actions|
    ensures Idle(p.stakes[c]) ==> r == SeatOutcome(p, false, false)
    ensures !Idle(p.stakes[c]) ==> r.after.hasBet == p.hasBet + {ps[c].id}
    ensures r.raised ==> !Idle(p.stakes[c]) && ps[c].id !in p.hasBet
    ensures forall k :: 0 <= k < |ps| && k != c ==> r.after.stakes[k] == p.stakes[k]
  {
    if Idle(p.stakes[c]) then SeatOutcome(p, false, false) else Prompted(ps, level, actions, p, c)
  }

  /**
   * The turn loop of `run_bet_round` (hand.py lines 209-253) from seat
   * `current`, with the round ending at seat `roundEnd`: each seat takes its
   * step; an accepted raise moves the end of the round to the seat before
   * the raiser; the loop stops once the seat that ends the round has had its
   * step or fewer than two players have not folded, and goes on to the next
   * seat otherwise. When the actions run out on a prompted player the loop
   * stops there. Only a player prompted for the first time may raise, so
   * the round is finite.
   */
  function PlayFrom(ps: seq<HandPlayer>, level: int, actions: seq<string>, p: Progress, current: nat, roundEnd: nat): (r: RoundResult)
    requires current < |ps| && roundEnd < |ps| && |p.stakes| == |ps| && p.next <= |actions|
    ensures r.current < |ps| && r.roundEnd < |ps| && |r.after.stakes| == |ps| && p.next <= r.after.next <= |actions|
    ensures !r.stalled ==> r.current == r.roundEnd || |Survive(ps, r.after.stakes)| < 2
    decreases Ids(ps) - p.hasBet, Dist(current, roundEnd, |ps|)
  {
    var n := |ps|;
    var o := SeatStep(ps, level, actions, p, current);
    if o.stalled then RoundResult(o.after, current, roundEnd, true)
    else
      var end := if o.raised then PrevSeat(current, n) else roundEnd;
      if current == end || |Survive(ps, o.after.stakes)| < 2 then RoundResult(o.after, current, end, false)
      else
        assert ps[current].id in Ids(ps);
        assert Ids(ps) - o.after.hasBet == Ids(ps) - p.hasBet || Ids(ps) - o.after.hasBet < Ids(ps) - p.hasBet;
        DistNext(current, end, n);
        PlayFrom(ps, level, actions, o.after, NextSeat(current, n), end)
  }

  /**
   * One step of `PlayFrom`, for the outcome `o` of the seat's step: every
   * step keeps or shrinks the set of players not yet prompted, and a raise
   * shrinks it.
   */
  lemma {:induction false} PlayFromStep(ps: seq<HandPlayer>, level: int, actions: seq<string>, p: Progress,
                                        current: nat, roundEnd: nat, o: SeatOutcome)
    requires current < |ps| && roundEnd < |ps| && |p.stakes| == |ps| && p.next <= |actions|
    requires o == SeatStep(ps, level, actions, p, current)
    ensures Ids(ps) - o.after.hasBet == Ids(ps) - p.hasBet || Ids(ps) - o.after.hasBet < Ids(ps) - p.hasBet
    ensures o.raised ==> Ids(ps) - o.after.hasBet < Ids(ps) - p.hasBet
    ensures var r := PlayFrom(ps, level, actions, p, current, roundEnd);
      var end := if o.raised then PrevSeat(current, |ps|) else roundEnd;
      if o.stalled then r == RoundResult(o.after, current, roundEnd, true)
      else if current == end || |Survive(ps, o.after.stakes)| < 2 then r == RoundResult(o.after, current, end, false)
      else r == PlayFrom(ps, level, actions, o.after, NextSeat(current, |ps|), end)
  {
    assert ps[current].id in Ids(ps);
  }

  /** A seat's step keeps the round's record. */
  lemma {:induction false} SeatStepKeepsRound(ps: seq<HandPlayer>, level: int, actions: seq<string>,
                                              s0: seq<Stake>, l0: seq<Bet<HandPlayer>>, p: Progress, c: nat)
    requires DistinctIds(ps) && c < |ps| && p.next <= |actions|
    requires RoundSoFar(ps, s0, p.stakes, l0, p.ledger, p.hasBet)
    ensures var o := SeatStep(ps, level, actions, p, c);
      RoundSoFar(ps, s0, o.after.stakes, l0, o.after.ledger, o.after.hasBet)
  {
    var st := p.stakes[c];
    if !Idle(st) {
      var options := GetPlayersOptions(ps[c].id, st.holdings, st.betAmount, level, p.hasBet);
      var gap := level + MaxRaise(p.ledger) - st.betAmount;
      var taken := FirstAccepted(actions, p.next, options, gap, st.holdings);
      var m := if taken < |actions| then MoveOf(actions[taken], options, gap, st.holdings) else None;
      PromptedIs(ps, level, actions, p, c, options, gap, taken, m);
      var o := SeatStep(ps, level, actions, p, c);
      assert o.after.stakes == p.stakes[c := Moved(st, m)] && o.after.ledger == Logged(p.ledger, ps[c], m);
      assert o.after.hasBet == p.hasBet + {ps[c].id};
      TurnKeepsRound(ps, s0, p.stakes, l0, p.ledger, p.hasBet, c, m);
    }
  }

  /**
   * The whole turn loop keeps the round's record: chips only move from
   * holdings to bets and into the ledger under the payer's name, folds are
   * never undone, and only players prompted while still in with money change.
   */
  lemma {:induction false} PlayFromKeepsRound(ps: seq<HandPlayer>, level: int, actions: seq<string>,
                                              s0: seq<Stake>, l0: seq<Bet<HandPlayer>>, p: Progress, current: nat, roundEnd: nat)
    requires DistinctIds(ps) && current < |ps| && roundEnd < |ps| && p.next <= |actions|
    requires RoundSoFar(ps, s0, p.stakes, l0, p.ledger, p.hasBet)
    ensures var r := PlayFrom(ps, level, actions, p, current, roundEnd);
      RoundSoFar(ps, s0, r.after.stakes, l0, r.after.ledger, r.after.hasBet)
    decreases Ids(ps) - p.hasBet, Dist(current, roundEnd, |ps|)
  {
    var n := |ps|;
    var o := SeatStep(ps, level, actions, p, current);
    SeatStepKeepsRound(ps, level, actions, s0, l0, p, current);
    if !o.stalled {
      var end := if o.raised then PrevSeat(current, n) else roundEnd;
      if !(current == end || |Survive(ps, o.after.stakes)| < 2) {
        assert ps[current].id in Ids(ps);
        assert Ids(ps) - o.after.hasBet == Ids(ps) - p.hasBet || Ids(ps) - o.after.hasBet < Ids(ps) - p.hasBet;
        DistNext(current, end, n);
        PlayFromKeepsRound(ps, level, actions, s0, l0, o.after, NextSeat(current, n), end);
      }
    }
  }

  /**
   * A player who has folded or has no money when the loop reaches them is
   * skipped for the rest of the round: their stake never changes again.
   */
  lemma {:induction false} PlayFromLeavesIdle(ps: seq<HandPlayer>, level: int, actions: seq<string>,
                                              p: Progress, current: nat, roundEnd: nat, k: nat)
    requires current < |ps| && roundEnd < |ps| && |p.stakes| == |ps| && p.next <= |actions|
    requires k < |ps| && Idle(p.stakes[k])
    ensures PlayFrom(ps, level, actions, p, current, roundEnd).after.stakes[k] == p.stakes[k]
    decreases Ids(ps) - p.hasBet, Dist(current, roundEnd, |ps|)
  {
    var n := |ps|;
    var o := SeatStep(ps, level, actions, p, current);
    assert o.after.stakes[k] == p.stakes[k];
    if !o.stalled {
      var end := if o.raised then PrevSeat(current, n) else roundEnd;
      if !(current == end || |Survive(ps, o.after.stakes)| < 2) {
        assert ps[current].id in Ids(ps);
        assert Ids(ps) - o.after.hasBet == Ids(ps) - p.hasBet || Ids(ps) - o.after.hasBet < Ids(ps) - p.hasBet;
        DistNext(current, end, n);
        PlayFromLeavesIdle(ps, level, actions, o.after, NextSeat(current, n), end, k);
      }
    }
  }
}
