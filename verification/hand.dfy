/**
 * One hand of poker (`Hand`, hand.py lines 86-338): the deal, the betting
 * rounds over the active pot, the settlement of each round's ledger into the
 * pots, the reveals of the community cards, the showdown and the return of
 * the cards to the deck. Messages to the players are not modelled; the
 * actions players type arrive as a sequence of strings, and the hand
 * evaluator is a parameter.
 */
module Hands {
  import opened Outcomes
  import opened Cards
  import opened Ledger
  import opened Sorting
  import opened SidePots
  import opened Settlement
  import opened Actions
  import opened Turns
  import opened Showdown
  import opened Players
  import opened Betting
  import opened Rounds

  /** A player as the table hands it to the hand: an id and what they hold. */
  datatype Seat = Seat(id: nat, holdings: int)

  /** The ways a round fails where the program raises an exception other than the one-player-left signal. */
  datatype Fault =
    | StartTooLarge   // `assign_blinds`, line 163
    | SmallAboveBig   // `assign_blinds`, line 166
    | NoPlayers       // `prevp` divides by the number of players, line 196
    | SeatOutOfRange  // the start seat indexes past the players, line 212
    | OutOfActions    // the player was prompted and no accepted action followed
    | NobodyLeft      // every player folded, `playing_players[0]` fails, line 279
    | TooFewToShow    // fewer than two players at the showdown, `scores[1]` fails, line 333

  /** How a settled round ends the hand or lets it go on (`OnePlayerLeftException`, lines 82-84 and 278-279). */
  datatype RoundEnd = Continue | OnePlayerLeft(winner: HandPlayer)

  /** The cards `reveal_cards` moves: the face-up and face-down piles after turning up `num` cards. */
  function Reveal(up: seq<Card>, down: seq<Card>, num: nat): (r: (seq<Card>, seq<Card>))
    ensures r.0 + r.1 == up + down
    ensures |r.0| == |up| + (if num <= |down| then num else |down|)
  {
    var k := if num <= |down| then num else |down|;
    assert down == down[..k] + down[k..];
    (up + down[..k], down[k..])
  }

  /**
   * The reveals of `run` (hand.py lines 119-123): three cards, then one, then
   * one, turn the five community cards up in the order they were dealt.
   */
  lemma {:induction false} ThreeOneOne(board: seq<Card>)
    requires |board| == 5
    ensures var flop := Reveal([], board, 3);
      var turn := Reveal(flop.0, flop.1, 1);
      var river := Reveal(turn.0, turn.1, 1);
      && flop.0 == board[..3] && turn.0 == board[..4] && river == (board, [])
  {
    var flop := Reveal([], board, 3);
    assert flop.1 == board[3..];
    var turn := Reveal(flop.0, flop.1, 1);
    assert turn.0 == board[..3] + [board[3]] == board[..4];
    assert turn.1 == board[4..];
    var river := Reveal(turn.0, turn.1, 1);
    assert river.0 == board[..4] + [board[4]] == board;
  }

  /** Everything in the five piles, as one multiset. */
  lemma {:induction false} CombineDealt(deck: multiset<Card>, rest: multiset<Card>, hands: multiset<Card>,
                     left: multiset<Card>, board: multiset<Card>, burned: multiset<Card>)
    requires rest + hands == deck && left + board + burned == rest
    ensures left + burned + hands + multiset{} + board == deck
  {
    forall c
      ensures (left + burned + hands + multiset{} + board)[c] == deck[c]
    {
    }
  }

  /** The deal of `Hand(...)` moves cards between piles and loses none. */
  lemma {:induction false} DealKeepsCards(deck: seq<Card>, hs: seq<seq<Card>>, rest: seq<Card>,
                       left: seq<Card>, board: seq<Card>, burned: seq<Card>)
    requires |rest| >= 8
    requires multiset(rest) + multiset(Flatten(hs)) == multiset(deck)
    requires var n := |rest|;
      && board == [rest[n - 2], rest[n - 3], rest[n - 4], rest[n - 6], rest[n - 8]]
      && burned == [] + [rest[n - 1], rest[n - 5], rest[n - 7]]
      && left == rest[..n - 8]
    ensures multiset(left) + multiset(burned) + multiset(Flatten(hs)) + multiset([]) + multiset(board)
      == multiset(deck)
  {
    CommunityCardsKept(rest);
    assert burned == [rest[|rest| - 1], rest[|rest| - 5], rest[|rest| - 7]];
    CombineDealt(multiset(deck), multiset(rest), multiset(Flatten(hs)),
                 multiset(left), multiset(board), multiset(burned));
  }

  /**
   * Where each card of the deal comes from: each player's two hole cards
   * (player `k` gets the `k`th card from the top, then the `k`th of the next
   * round), then the community deal from what is left, and the rest of the deck.
   */
  ghost predicate DealtFrom(deck: seq<Card>, players: nat, hs: seq<seq<Card>>, left: seq<Card>, board: seq<Card>, burned: seq<Card>)
  {
    && |deck| >= 2 * players + 8
    && |hs| == players
    && (forall k :: 0 <= k < players ==>
         hs[k] == [deck[|deck| - 1 - k], deck[|deck| - 1 - players - k]])
    && var m := |deck| - 2 * players;
       && board == [deck[m - 2], deck[m - 3], deck[m - 4], deck[m - 6], deck[m - 8]]
       && burned == [deck[m - 1], deck[m - 5], deck[m - 7]]
       && left == deck[..m - 8]
  }

  /** The players seated from `seats` with hole cards `hs`: as they hold, having bet nothing and not folded. */
  ghost predicate SeatedFrom(ps: seq<HandPlayer>, seats: seq<Seat>, hs: seq<seq<Card>>)
    reads ps
  {
    && |ps| == |seats| == |hs|
    && forall k :: 0 <= k < |seats| ==>
      && ps[k].id == seats[k].id && ps[k].holdings == seats[k].holdings
      && ps[k].hole == hs[k] && ps[k].betAmount == 0 && !ps[k].folded
  }

  /** The cards of the deck, the discard pile, the hole cards and the two community piles are those of `all`. */
  ghost predicate Accounted(deck: seq<Card>, discard: seq<Card>, hands: seq<seq<Card>>,
                            faceUp: seq<Card>, faceDown: seq<Card>, all: seq<Card>)
  {
    multiset(deck) + multiset(discard) + multiset(Flatten(hands)) + multiset(faceUp) + multiset(faceDown)
      == multiset(all)
  }

  /** The face-up and face-down piles may trade cards without upsetting the count. */
  lemma {:induction false} RegroupedAccounted(deck: seq<Card>, discard: seq<Card>, hands: seq<seq<Card>>,
                                              up: seq<Card>, down: seq<Card>, up': seq<Card>, down': seq<Card>, all: seq<Card>)
    requires multiset(up') + multiset(down') == multiset(up) + multiset(down)
    ensures Accounted(deck, discard, hands, up, down, all) ==> Accounted(deck, discard, hands, up', down', all)
  {
    var rest := multiset(deck) + multiset(discard) + multiset(Flatten(hands));
    assert rest + multiset(up) + multiset(down) == rest + (multiset(up) + multiset(down));
    assert rest + multiset(up') + multiset(down') == rest + (multiset(up') + multiset(down'));
  }

  /** The deal of `Hand(...)` (hand.py lines 94 and 96): hole cards, then the community deal. */
  method Deal(deck: seq<Card>, players: nat) returns (hs: seq<seq<Card>>, left: seq<Card>, board: seq<Card>, burned: seq<Card>)
    requires |deck| >= 2 * players + 8
    ensures DealtFrom(deck, players, hs, left, board, burned)
  {
    var rest;
    hs, rest := DealHands(deck, players);
    board, left, burned := DealCommunityCards(rest, []);
    assert burned == [] + burned;
  }

  /** The deal moves cards between piles and loses none. */
  lemma {:induction false} DealConservesCards(deck: seq<Card>, players: nat, hs: seq<seq<Card>>, left: seq<Card>, board: seq<Card>, burned: seq<Card>)
    requires DealtFrom(deck, players, hs, left, board, burned)
    ensures Accounted(left, burned, hs, [], board, deck)
  {
    var rest := deck[..|deck| - 2 * players];
    TwoRoundsOfCards(deck, players, hs);
    assert burned == [] + burned;
    DealKeepsCards(deck, hs, rest, left, board, burned);
  }

  /** `[HandPlayer(p, h) for p, h in zip(players, self.hands)]` (hand.py line 95). */
  method SeatPlayers(seats: seq<Seat>, hs: seq<seq<Card>>) returns (ps: seq<HandPlayer>)
    requires |hs| == |seats|
    requires forall i, j :: 0 <= i < j < |seats| ==> seats[i].id != seats[j].id
    ensures SeatedFrom(ps, seats, hs)
    ensures DistinctIds(ps)
  {
    ps := [];
    for i := 0 to |seats|
      invariant |ps| == i
      invariant forall k :: 0 <= k < i ==>
        && ps[k].id == seats[k].id && ps[k].holdings == seats[k].holdings
        && ps[k].hole == hs[k] && ps[k].betAmount == 0 && !ps[k].folded
    {
      var p := new HandPlayer(seats[i].id, seats[i].holdings, hs[i]);
      ps := ps + [p];
    }
  }

  /** Distinct players drawn from a list of players with distinct ids have distinct ids. */
  lemma {:induction false} DistinctSubIds(e: seq<HandPlayer>, ps: seq<HandPlayer>)
    requires DistinctIds(ps) && forall k :: 0 <= k < |e| ==> e[k] in ps
    requires forall i, j :: 0 <= i < j < |e| ==> e[i] != e[j]
    ensures DistinctIds(e)
  {
    forall i, j | 0 <= i < j < |e|
      ensures e[i].id != e[j].id
    {
      var a :| 0 <= a < |ps| && ps[a] == e[i];
      var b :| 0 <= b < |ps| && ps[b] == e[j];
      assert a != b;
    }
  }

  /**
   * Settling a round whose wagers all belong to players of the active pot
   * `ps`, one entry each, leaves an active pot open only to players of `ps`,
   * with distinct ids when those of `ps` are.
   */
  lemma {:induction false} SettledEligible(pots: seq<Pot<HandPlayer>>, ledger: seq<Bet<HandPlayer>>)
    requires |pots| > 0 && DistinctIds(pots[|pots| - 1].eligible)
    requires (forall j :: 0 <= j < |ledger| ==> ledger[j].who in pots[|pots| - 1].eligible) && DistinctOwners(ledger)
    ensures var s := Settle(pots, ledger);
      var e := s[|s| - 1].eligible;
      && (forall k :: 0 <= k < |e| ==> e[k] in pots[|pots| - 1].eligible)
      && DistinctIds(e)
  {
    if AllAt(ledger, MaxRaise(ledger)) {
      SettleKeepsEarlierPots(pots, ledger);
    } else {
      SplitEligible(pots, ledger);
    }
  }

  /** SettledEligible for a round whose wagers are not all equal. */
  lemma {:induction false} SplitEligible(pots: seq<Pot<HandPlayer>>, ledger: seq<Bet<HandPlayer>>)
    requires |pots| > 0 && DistinctIds(pots[|pots| - 1].eligible) && !AllAt(ledger, MaxRaise(ledger))
    requires (forall j :: 0 <= j < |ledger| ==> ledger[j].who in pots[|pots| - 1].eligible) && DistinctOwners(ledger)
    ensures var s := Settle(pots, ledger);
      var e := s[|s| - 1].eligible;
      && (forall k :: 0 <= k < |e| ==> e[k] in pots[|pots| - 1].eligible)
      && DistinctIds(e)
  {
    var ps := pots[|pots| - 1].eligible;
    var s := Settle(pots, ledger);
    var e := s[|s| - 1].eligible;
    SettleEligible(pots, ledger);
    forall k | 0 <= k < |e|
      ensures e[k] in ps
    {
      var j :| 0 <= j < |ledger| && ledger[j].who == e[k];
    }
    DistinctSubIds(e, ps);
  }

  /**
   * The pots at the end of a settled round (hand.py lines 255-277): the
   * round's ledger settled into `pots`, then the folded players leave the
   * active pot.
   */
  ghost function Resolved(pots: seq<Pot<HandPlayer>>, ledger: seq<Bet<HandPlayer>>): seq<Pot<HandPlayer>>
    requires |pots| > 0
    reads if |Settle(pots, ledger)| > 0 then Settle(pots, ledger)[|Settle(pots, ledger)| - 1].eligible else []
  {
    var s := Settle(pots, ledger);
    if |s| == 0 then s else s[|s| - 1 := s[|s| - 1].(eligible := Unfolded(s[|s| - 1].eligible))]
  }

  /** Letting folded players leave the active pot changes no amount. */
  lemma {:induction false} LeavingKeepsAmounts(s: seq<Pot<HandPlayer>>, e: seq<HandPlayer>)
    requires |s| > 0
    ensures TotalAmount(s[|s| - 1 := s[|s| - 1].(eligible := e)]) == TotalAmount(s)
  {
    var last := s[|s| - 1].(eligible := e);
    assert s[|s| - 1 := last] == s[..|s| - 1] + [last];
    TotalAmountReplaceLast(s, [last]);
    TotalAmountOne(last);
  }

  /**
   * The round's books balance: each player's holdings and running bet move
   * together, a fold is never undone, and the ledger holds, under each player's
   * name and nobody else's, exactly what that player put in.
   */
  ghost predicate ChipsAccounted(ps: seq<HandPlayer>, s0: seq<Stake>, s: seq<Stake>, l: seq<Bet<HandPlayer>>)
  {
    && |s0| == |ps| && |s| == |ps|
    && (forall k :: 0 <= k < |ps| ==> s[k].holdings + s[k].betAmount == s0[k].holdings + s0[k].betAmount)
    && (forall k :: 0 <= k < |ps| ==> s0[k].folded ==> s[k].folded)
    && (forall k :: 0 <= k < |ps| ==> AmountOf(l, ps[k]) == s[k].betAmount - s0[k].betAmount)
    && (forall j :: 0 <= j < |l| ==> l[j].who in ps)
    && DistinctOwners(l)
  }

  /** Before anybody bets, the empty ledger balances the books. */
  lemma {:induction false} NothingPosted(ps: seq<HandPlayer>, s0: seq<Stake>)
    requires |s0| == |ps|
    ensures ChipsAccounted(ps, s0, s0, [])
  {
  }

  /** The blinds' ledger records what each seat posted. */
  lemma {:induction false} BlindsAccounted(ps: seq<HandPlayer>, s0: seq<Stake>, s1: seq<Stake>, start: nat, small: int, big: int)
    requires DistinctIds(ps) && |ps| > 0 && start <= |ps| && small <= big
    requires |s0| == |ps| && PostedUpTo(s0, s1, |ps|, start, small, big)
    ensures ChipsAccounted(ps, s0, s1, BlindBets(ps, |ps|, start, small, big))
  {
    assert forall x, y :: 0 <= x < y < |ps| ==> ps[x] != ps[y] by {
      forall x, y | 0 <= x < y < |ps| ensures ps[x] != ps[y] {
        assert ps[x].id != ps[y].id;
      }
    }
    BlindLedger(ps, start, small, big);
    var l := BlindBets(ps, |ps|, start, small, big);
    forall k | 0 <= k < |ps|
      ensures AmountOf(l, ps[k]) == s1[k].betAmount - s0[k].betAmount
    {
      PostedAmounts(ps, SeatBlinds(|ps|, start), |ps|, small, big, k);
    }
  }

  /** The turns of a round extend the books kept since its start. */
  lemma {:induction false} TurnsAccounted(ps: seq<HandPlayer>, s0: seq<Stake>, s1: seq<Stake>, s2: seq<Stake>,
                       l1: seq<Bet<HandPlayer>>, l2: seq<Bet<HandPlayer>>, prompted: set<nat>)
    requires ChipsAccounted(ps, s0, s1, l1) && RoundSoFar(ps, s1, s2, l1, l2, prompted)
    ensures ChipsAccounted(ps, s0, s2, l2)
  {
    forall k | 0 <= k < |ps|
      ensures AmountOf(l2, ps[k]) == s2[k].betAmount - s0[k].betAmount
    {
      assert AmountOf(l2, ps[k]) - AmountOf(l1, ps[k]) == s2[k].betAmount - s1[k].betAmount;
    }
  }

  /** The posting loop of `assign_blinds` (hand.py lines 168 and 173-186), once the checks have passed. */
  method PostBlinds(ps: seq<HandPlayer>, start: nat, small: int, big: int) returns (bets: seq<Bet<HandPlayer>>)
    requires DistinctIds(ps) && start <= |ps|
    modifies ps
    ensures bets == BlindBets(ps, |ps|, start, small, big)
    ensures PostedUpTo(old(Stakes(ps)), Stakes(ps), |ps|, start, small, big)
  {
    var n := |ps|;
    var smallEnabled := n > 2;
    ghost var s0 := Stakes(ps);
    bets := [];
    for i := 0 to n
      invariant bets == Posted(ps, SeatBlinds(n, start), i, small, big)
      invariant PostedUpTo(s0, Stakes(ps), i, start, small, big)
    {
      if i == (start - 1) % n {
        PayInto(ps, i, big);
        bets := bets + [Bet(big, ps[i])];
      } else if smallEnabled && i == (start - 2) % n {
        PayInto(ps, i, small);
        bets := bets + [Bet(small, ps[i])];
      }
    }
  }

  /**
   * The stakes `s` of the players after the blinds of the first `i` seats
   * are posted, from stakes `s0`: each of those seats has moved its blind
   * from its holdings to its bet, and nothing else has changed.
   */
  ghost predicate PostedUpTo(s0: seq<Stake>, s: seq<Stake>, i: nat, start: nat, small: int, big: int)
  {
    && |s| == |s0|
    && forall k :: 0 <= k < |s0| ==>
         s[k] == if k < i then Paid(s0[k], BlindAmount(BlindAt(k, |s0|, start), small, big)) else s0[k]
  }

  /** The stakes once every seat has posted its blind from stakes `s0`. */
  function Blinded(s0: seq<Stake>, start: nat, small: int, big: int): seq<Stake>
  {
    seq(|s0|, k requires 0 <= k < |s0| => Paid(s0[k], BlindAmount(BlindAt(k, |s0|, start), small, big)))
  }

  lemma {:induction false} PostedAll(s0: seq<Stake>, s: seq<Stake>, start: nat, small: int, big: int)
    requires PostedUpTo(s0, s, |s0|, start, small, big)
    ensures s == Blinded(s0, start, small, big)
  {
  }

  /** `ps[i].bet(amount)`: with distinct players, only that player's stake changes. */
  method PayInto(ps: seq<HandPlayer>, i: nat, amount: int)
    requires DistinctIds(ps) && i < |ps|
    modifies ps[i]
    ensures Stakes(ps) == old(Stakes(ps))[i := Paid(old(StakeOf(ps[i])), amount)]
  {
    ps[i].Bet(amount);
    assert forall k :: 0 <= k < |ps| && k != i ==> ps[k] != ps[i];
  }

  // ---------------------------------------------------------------------------
  // The showdown's payout (`make_winner` and `make_draw`, hand.py lines 137-148).

  /**
   * The entries of `scores` (hand.py line 318): each player with what the
   * evaluator `eval` makes of their hole cards and the face-up cards.
   */
  function Scores(ps: seq<HandPlayer>, board: seq<Card>, eval: seq<Card> -> Rank): (r: seq<Score<HandPlayer>>)
    ensures |r| == |ps| && forall k :: 0 <= k < |ps| ==> r[k] == Score(ps[k], eval(ps[k].hole + board))
  {
    seq(|ps|, k requires 0 <= k < |ps| => Score(ps[k], eval(ps[k].hole + board)))
  }

  /** A stake after `win(amount)`. */
  function Credited(st: Stake, amount: int): Stake
  {
    st.(holdings := st.holdings + amount)
  }

  /**
   * What player `p` wins out of a pot of `amount` chips: all of it as the
   * sole winner, half of it (halved on integers) for each place they take
   * in a draw, and nothing otherwise.
   */
  function Share(d: Decision<HandPlayer>, p: HandPlayer, amount: int): int
  {
    match d
    case Winner(w) => if p == w then amount else 0
    case Draw(a, b) => (if p == a then amount / 2 else 0) + (if p == b then amount / 2 else 0)
  }

  /** What the players `ps` win between them. */
  function TotalShare(d: Decision<HandPlayer>, ps: seq<HandPlayer>, amount: int): int
  {
    if |ps| == 0 then 0 else Share(d, ps[0], amount) + TotalShare(d, ps[1..], amount)
  }

  /** Among players with distinct ids, each player the decision names is paid once. */
  lemma {:induction false} TotalShareOnce(d: Decision<HandPlayer>, ps: seq<HandPlayer>, amount: int)
    requires DistinctIds(ps)
    ensures TotalShare(d, ps, amount) == match d
      case Winner(w) => if w in ps then amount else 0
      case Draw(a, b) => (if a in ps then amount / 2 else 0) + (if b in ps then amount / 2 else 0)
    decreases |ps|
  {
    if |ps| > 0 {
      var tail := ps[1..];
      DistinctIdsTail(ps);
      TotalShareOnce(d, tail, amount);
      assert forall j :: 0 <= j < |tail| ==> tail[j] == ps[j + 1] && ps[j + 1].id != ps[0].id;
      assert ps[0] !in tail;
      assert forall p :: p in ps <==> p == ps[0] || p in tail;
    }
  }

  /**
   * The showdown among at least two players with distinct ids names players
   * of the pot, two different ones for a draw, and pays out the pot once: the
   * whole of it to a sole winner, and to two drawing players all of it but
   * the odd chip that integer halving drops.
   */
  lemma {:induction false} ShowdownPaysPot(ps: seq<HandPlayer>, board: seq<Card>, eval: seq<Card> -> Rank, amount: int)
    requires DistinctIds(ps) && |ps| >= 2
    ensures var d := Decide(Scores(ps, board, eval)).value;
      && (d.Winner? ==> d.winner in ps && TotalShare(d, ps, amount) == amount)
      && (d.Draw? ==> d.first in ps && d.second in ps && d.first != d.second)
      && (d.Draw? ==> TotalShare(d, ps, amount) == amount - amount % 2)
  {
    var scores := Scores(ps, board, eval);
    var d := Decide(scores).value;
    DecidedAmongScores(scores);
    DrawersDiffer(scores);
    TotalShareOnce(d, ps, amount);
    match d
    case Winner(w) =>
      var i :| 0 <= i < |scores| && scores[i].who == w;
      assert ps[i] == w;
    case Draw(a, b) =>
      var i :| 0 <= i < |scores| && scores[i].who == a;
      var j :| 0 <= j < |scores| && scores[j].who == b;
      assert ps[i] == a && ps[j] == b;
  }

  class Hand {
    /** The deck the hand deals from; what is left of it once dealt. */
    var deck: seq<Card>
    var discard: seq<Card>
    /** The hole cards dealt to each player, in seat order. */
    const hands: seq<seq<Card>>
    /** `all_hand_players`. */
    const players: seq<HandPlayer>
    var faceDown: seq<Card>
    var faceUp: seq<Card>
    var startPos: nat
    /** The active pot: always the last of `pots`, which holds it by reference in the program. */
    var pot: Pot<HandPlayer>
    var pots: seq<Pot<HandPlayer>>
    /** The deck as it was handed to the hand. */
    ghost const dealt: seq<Card>

    ghost predicate Valid()
      reads `pot, `pots
    {
      && |pots| > 0
      && pot == pots[|pots| - 1]
      && DistinctIds(pot.eligible)
    }

    /** No card is lost or duplicated: the piles hold exactly the deck the hand was given. */
    ghost predicate CardsConserved()
      reads this
    {
      Accounted(deck, discard, hands, faceUp, faceDown, dealt)
    }

    /**
     * `Hand(players, deck, start_pos)` (hand.py lines 88-101): two cards to
     * each player, eight more popped for the community deal, and one pot
     * open to everybody. Dealing pops from the deck, so it must hold two cards
     * per player and eight more.
     */
    constructor (seats: seq<Seat>, deck: seq<Card>, startPos: nat)
      requires |deck| >= 2 * |seats| + 8
      requires forall i, j :: 0 <= i < j < |seats| ==> seats[i].id != seats[j].id
      ensures SeatedFrom(players, seats, hands)
      ensures DealtFrom(deck, |seats|, hands, this.deck, faceDown, discard)
      ensures faceUp == [] && this.startPos == startPos
      ensures pots == [Pot(0, 0, players)] && Valid()
      ensures dealt == deck
    {
      var hs, left, board, burned := Deal(deck, |seats|);
      this.deck, discard, hands, faceDown, faceUp := left, burned, hs, board, [];
      dealt := deck;
      var ps := SeatPlayers(seats, hs);
      players := ps;
      this.startPos := startPos;
      pot := Pot(0, 0, ps);
      pots := [Pot(0, 0, ps)];
    }

    /**
     * The turn loop of `run_bet_round` (hand.py lines 201 and 209-253), as
     * `PlayFrom` describes it: play goes clockwise from the start seat, the
     * round first ending at the seat before it, and the actions are read
     * from position `from` of `actions`. `stalled` is set when the actions
     * run out on a prompted player.
     */
    method PlayTurns(elig: seq<HandPlayer>, ledger0: seq<Bet<HandPlayer>>, actions: seq<string>, from: nat)
      returns (ledger: seq<Bet<HandPlayer>>, next: nat, stalled: bool, hasBet: set<nat>, current: nat, roundEnd: nat)
      requires DistinctIds(elig) && elig == pot.eligible && startPos < |elig| && from <= |actions|
      requires (forall j :: 0 <= j < |ledger0| ==> ledger0[j].who in elig) && DistinctOwners(ledger0)
      modifies elig
      ensures RoundResult(Progress(Stakes(elig), ledger, hasBet, next), current, roundEnd, stalled)
           == PlayFrom(elig, pot.level, actions, Progress(old(Stakes(elig)), ledger0, {}, from), startPos, PrevSeat(startPos, |elig|))
      ensures RoundSoFar(elig, old(Stakes(elig)), Stakes(elig), ledger0, ledger, hasBet)
      ensures pot == old(pot) && startPos == old(startPos)
    {
      var n := |elig|;
      ghost var s0 := Stakes(elig);
      ghost var goal := PlayFrom(elig, pot.level, actions, Progress(s0, ledger0, {}, from), startPos, PrevSeat(startPos, n));
      ghost var ids := Ids(elig);
      PlayFromKeepsRound(elig, pot.level, actions, s0, ledger0, Progress(s0, ledger0, {}, from), startPos, PrevSeat(startPos, n));
      ledger, next, stalled, hasBet := ledger0, from, false, {};
      current := startPos;
      roundEnd := PrevSeat(current, n);
      while true
        invariant current < n && roundEnd < n && from <= next <= |actions|
        invariant pot == old(pot) && startPos == old(startPos)
        invariant PlayFrom(elig, pot.level, actions, Progress(Stakes(elig), ledger, hasBet, next), current, roundEnd) == goal
        decreases ids - hasBet, Dist(current, roundEnd, n)
      {
        ghost var p := Progress(Stakes(elig), ledger, hasBet, next);
        var raised;
        ledger, next, hasBet, raised, stalled := SeatTurn(elig, current, actions, next, ledger, hasBet);
        ghost var o := SeatOutcome(Progress(Stakes(elig), ledger, hasBet, next), raised, stalled);
        PlayFromStep(elig, pot.level, actions, p, current, roundEnd, o);
        if stalled {
          assert goal == RoundResult(o.after, current, roundEnd, true);
          return;
        }
        if raised {
          roundEnd := PrevSeat(current, n);
        }
        if current == roundEnd || |Unfolded(elig)| < 2 {
          assert goal == RoundResult(o.after, current, roundEnd, false);
          return;
        }
        current := NextSeat(current, n);
      }
    }

    /**
     * The seat `c`'s part of one pass of the turn loop (hand.py lines
     * 212-248), as `SeatStep` describes it: a player who has not folded and
     * has money is offered their options, recorded as prompted, and takes
     * their turn; anyone else is skipped and nothing changes.
     */
    method SeatTurn(elig: seq<HandPlayer>, c: nat, actions: seq<string>, from: nat, ledger: seq<Bet<HandPlayer>>,
                    hasBet: set<nat>)
      returns (newLedger: seq<Bet<HandPlayer>>, next: nat, newHasBet: set<nat>, raised: bool, stalled: bool)
      requires DistinctIds(elig) && c < |elig| && from <= |actions|
      modifies elig[c]
      ensures var o := SeatStep(elig, pot.level, actions, Progress(old(Stakes(elig)), ledger, hasBet, from), c);
        && Stakes(elig) == o.after.stakes && newLedger == o.after.ledger && newHasBet == o.after.hasBet
        && next == o.after.next && raised == o.raised && stalled == o.stalled
      ensures pot == old(pot) && startPos == old(startPos)
    {
      var q := elig[c];
      newLedger, next, newHasBet, raised, stalled := ledger, from, hasBet, false, false;
      if !q.folded && q.HasMoney() {
        var options := GetPlayersOptions(q.id, q.holdings, q.betAmount, pot.level, hasBet);
        newHasBet := hasBet + {q.id};
        next, newLedger, raised, stalled := Prompt(elig, c, options, actions, from, ledger, hasBet);
      }
    }

    /**
     * One prompted turn of the loop, as `Prompted` describes it: the player
     * at seat `c` takes the first accepted action from position `from` on,
     * and the round's record is kept.
     */
    method Prompt(elig: seq<HandPlayer>, c: nat, options: seq<string>, actions: seq<string>, from: nat,
                  ledger: seq<Bet<HandPlayer>>, ghost before: set<nat>)
      returns (next: nat, newLedger: seq<Bet<HandPlayer>>, raised: bool, stalled: bool)
      requires DistinctIds(elig) && c < |elig| && from <= |actions|
      requires !elig[c].folded && elig[c].holdings > 0
      requires options == GetPlayersOptions(elig[c].id, elig[c].holdings, elig[c].betAmount, pot.level, before)
      modifies elig[c]
      ensures var o := Prompted(elig, pot.level, actions, Progress(old(Stakes(elig)), ledger, before, from), c);
        && Stakes(elig) == o.after.stakes && newLedger == o.after.ledger && next == o.after.next
        && raised == o.raised && stalled == o.stalled
    {
      ghost var s := Stakes(elig);
      var taken;
      ghost var m;
      taken, newLedger, raised, m := TurnAt(elig, c, options, actions, from, ledger);
      stalled := taken == |actions|;
      next := if stalled then from else taken + 1;
      PromptedIs(elig, pot.level, actions, Progress(s, ledger, before, from), c, options,
                 pot.level + MaxRaise(ledger) - s[c].betAmount, taken, m);
    }

    /** `TakeTurn` for the player at seat `c`: with distinct players, nobody else's stake changes. */
    method TurnAt(elig: seq<HandPlayer>, c: nat, options: seq<string>, actions: seq<string>, from: nat,
                  ledger: seq<Bet<HandPlayer>>)
      returns (taken: nat, newLedger: seq<Bet<HandPlayer>>, raised: bool, ghost m: Option<Move>)
      requires DistinctIds(elig) && c < |elig| && from <= |actions|
      modifies elig[c]
      ensures taken == FirstAccepted(actions, from, options, pot.level + MaxRaise(ledger) - old(elig[c].betAmount), old(elig[c].holdings))
      ensures m == if taken < |actions|
                   then MoveOf(actions[taken], options, pot.level + MaxRaise(ledger) - old(elig[c].betAmount), old(elig[c].holdings))
                   else None
      ensures Stakes(elig) == old(Stakes(elig))[c := Moved(old(StakeOf(elig[c])), m)]
      ensures newLedger == Logged(ledger, elig[c], m) && raised == Raises(m)
      ensures raised ==> "Raise" in options
    {
      var q := elig[c];
      ghost var s, st := Stakes(elig), StakeOf(q);
      ghost var gap, holdings := pot.level + MaxRaise(ledger) - q.betAmount, q.holdings;
      taken, newLedger, raised := TakeTurn(q, options, actions, from, ledger);
      m := if taken < |actions| then MoveOf(actions[taken], options, gap, holdings) else None;
      forall k | 0 <= k < |elig|
        ensures Stakes(elig)[k] == s[c := Moved(st, m)][k]
      {
        if k != c {
          assert elig[k].id != q.id;
        }
      }
      assert Stakes(elig) == s[c := Moved(st, m)];
    }

    /**
     * Lines 255-275: a ledger whose wagers are all equal is added to the
     * active pot, which stays the last of the list; otherwise the active pot
     * is replaced by the pots peeled from the ledger, the last of which
     * becomes the active pot.
     */
    method SettleRound(ledger: seq<Bet<HandPlayer>>)
      requires |pots| > 0 && pot == pots[|pots| - 1]
      modifies `pot, `pots
      ensures pots == Settle(old(pots), ledger) && |pots| > 0 && pot == pots[|pots| - 1]
    {
      var maxRaise := MaxRaise(ledger);
      if AllAt(ledger, maxRaise) {
        var total := TotalRaise(ledger);
        pot := Pot(pot.amount + total, pot.level + maxRaise, pot.eligible);
        pots := pots[..|pots| - 1] + [pot];
      } else {
        var peeled := SplitPots(ledger, pots[|pots| - 1]);
        pots := pots[..|pots| - 1] + peeled;
        SettleKeepsEarlierPots(old(pots), ledger);
        pot := pots[|pots| - 1];
      }
    }

    /** What settling keeps: every chip, the raised level, and the active pot's players. */
    method SettleLedger(ledger: seq<Bet<HandPlayer>>, ghost ps: seq<HandPlayer>)
      requires Valid()
      requires (forall j :: 0 <= j < |ledger| ==> ledger[j].who in pot.eligible) && DistinctOwners(ledger)
      modifies `pot, `pots
      ensures Stakes(ps) == old(Stakes(ps))
      ensures pots == Settle(old(pots), ledger) && Valid()
      ensures TotalAmount(pots) == old(TotalAmount(pots)) + Sum(ledger)
      ensures pot.level == old(pot.level) + MaxRaise(ledger)
      ensures forall k :: 0 <= k < |pot.eligible| ==> pot.eligible[k] in old(pot.eligible)
    {
      SettleConservesChips(pots, ledger);
      SettleLevel(pots, ledger);
      SettledEligible(pots, ledger);
      ghost var st := Stakes(ps);
      SettleRound(ledger);
      assert Stakes(ps) == st;
    }

    /**
     * `run_bet_round` (hand.py lines 195-280), with the players' answers
     * drawn in order from `actions`, starting at `from`. The blinds, when
     * asked for, are the defaults of `assign_blinds` (5 and 10). The books
     * balance on every path: each player's chips are in their holdings or
     * in the ledger; a settled round moves the whole ledger into the pots.
     */
    method RunBetRound(blinds: bool, actions: seq<string>, from: nat)
      returns (outcome: Result<RoundEnd, Fault>, ledger: seq<Bet<HandPlayer>>, next: nat)
      requires Valid() && from <= |actions|
      modifies `pot, `pots, `startPos, pot.eligible
      ensures var ps, n := old(pot.eligible), |old(pot.eligible)|;
        && ChipsAccounted(ps, old(Stakes(pot.eligible)), Stakes(ps), ledger)
        && from <= next <= |actions|
        && (blinds && old(startPos) > n ==> outcome == Err(StartTooLarge))
        && (!(blinds && old(startPos) > n) && n == 0 ==> outcome == Err(NoPlayers))
        && (!(blinds && old(startPos) > n) && 0 < n <= old(startPos) ==> outcome == Err(SeatOutOfRange))
        && (old(startPos) < n ==> outcome.Ok? || outcome == Err(NobodyLeft) || outcome == Err(OutOfActions))
      ensures var ps, n, s0, start := old(pot.eligible), |old(pot.eligible)|, old(Stakes(pot.eligible)), old(startPos);
        start < n ==>
          var r := PlayFrom(ps, old(pot.level), actions,
                            Progress(if blinds then Blinded(s0, start, 5, 10) else s0,
                                     if blinds then BlindBets(ps, n, start, 5, 10) else [], {}, from),
                            start, PrevSeat(start, n));
          && Stakes(ps) == r.after.stakes && ledger == r.after.ledger && next == r.after.next
          && (outcome == Err(OutOfActions) <==> r.stalled)
      ensures var settled := outcome.Ok? || outcome == Err(NobodyLeft);
        && (!settled ==> pots == old(pots) && pot == old(pot) && startPos == old(startPos))
        && (settled ==>
             && Valid()
             && pots == Resolved(old(pots), ledger)
             && TotalAmount(pots) == old(TotalAmount(pots)) + Sum(ledger)
             && pot.level == old(pot.level) + MaxRaise(ledger)
             && (forall k :: 0 <= k < |pot.eligible| ==> pot.eligible[k] in old(pot.eligible) && !pot.eligible[k].folded)
             && (|pot.eligible| == 0 <==> outcome == Err(NobodyLeft))
             && (|pot.eligible| == 1 ==> outcome == Ok(OnePlayerLeft(pot.eligible[0])))
             && (|pot.eligible| >= 2 ==> outcome == Ok(Continue) && startPos == old(startPos) % |pot.eligible|))
    {
      var opening, stalled;
      opening, ledger, next, stalled := OpenAndPlay(blinds, actions, from);
      if opening.Err? {
        outcome := Err(opening.error);
      } else if stalled {
        outcome := Err(OutOfActions);
      } else {
        outcome := Resolve(ledger);
      }
    }

    /**
     * The part of `run_bet_round` before the settlement (hand.py lines
     * 201-253): the opening, then, when the start seat names a player, the
     * turn loop from the start seat on the stakes left by the blinds, with
     * the blinds' ledger. The books balance on every path.
     */
    method OpenAndPlay(blinds: bool, actions: seq<string>, from: nat)
      returns (opening: Result<seq<Bet<HandPlayer>>, Fault>, ledger: seq<Bet<HandPlayer>>, next: nat, stalled: bool)
      requires Valid() && from <= |actions|
      modifies pot.eligible
      ensures var ps, n, s0 := pot.eligible, |pot.eligible|, old(Stakes(pot.eligible));
        && ChipsAccounted(ps, s0, Stakes(ps), ledger)
        && from <= next <= |actions|
        && (blinds && startPos > n ==> opening == Err(StartTooLarge))
        && (!(blinds && startPos > n) && n == 0 ==> opening == Err(NoPlayers))
        && (!(blinds && startPos > n) && 0 < n <= startPos ==> opening == Err(SeatOutOfRange))
        && (opening.Ok? <==> startPos < n)
      ensures var ps, n, s0 := pot.eligible, |pot.eligible|, old(Stakes(pot.eligible));
        startPos < n ==>
          var r := PlayFrom(ps, pot.level, actions,
                            Progress(if blinds then Blinded(s0, startPos, 5, 10) else s0,
                                     if blinds then BlindBets(ps, n, startPos, 5, 10) else [], {}, from),
                            startPos, PrevSeat(startPos, n));
          && Stakes(ps) == r.after.stakes && ledger == r.after.ledger && next == r.after.next
          && stalled == r.stalled
    {
      var ps := pot.eligible;
      ghost var s0 := Stakes(ps);
      opening := OpenRound(blinds);
      next, stalled := from, false;
      if opening.Err? {
        if blinds && startPos <= |ps| && |ps| > 0 {
          ledger := BlindBets(ps, |ps|, startPos, 5, 10);
          BlindsAccounted(ps, s0, Stakes(ps), startPos, 5, 10);
        } else {
          ledger := [];
          NothingPosted(ps, s0);
        }
        return;
      }
      ghost var s1 := Stakes(ps);
      ghost var start := Progress(if blinds then Blinded(s0, startPos, 5, 10) else s0,
                                  if blinds then BlindBets(ps, |ps|, startPos, 5, 10) else [], {}, from);
      assert start == Progress(s1, opening.value, {}, from) by {
        if blinds {
          PostedAll(s0, s1, startPos, 5, 10);
        }
      }
      var hasBet, current, roundEnd;
      ledger, next, stalled, hasBet, current, roundEnd := PlayTurns(ps, opening.value, actions, from);
      assert RoundResult(Progress(Stakes(ps), ledger, hasBet, next), current, roundEnd, stalled)
          == PlayFrom(ps, pot.level, actions, start, startPos, PrevSeat(startPos, |ps|));
      assert ChipsAccounted(ps, s0, Stakes(ps), ledger) by {
        TurnsAccounted(ps, s0, s1, Stakes(ps), opening.value, ledger, hasBet);
      }
    }

    /**
     * The opening of `run_bet_round` (hand.py lines 207-215): the blinds
     * are posted when asked for, then the start seat must name a player.
     * A start seat equal to the number of players passes the check of
     * `assign_blinds` and fails only after the blinds are posted.
     */
    method OpenRound(blinds: bool) returns (r: Result<seq<Bet<HandPlayer>>, Fault>)
      requires Valid()
      modifies pot.eligible
      ensures pot == old(pot) && startPos == old(startPos)
      ensures var ps, n, s0 := pot.eligible, |pot.eligible|, old(Stakes(pot.eligible));
        && (blinds && startPos > n ==> r == Err(StartTooLarge))
        && (!(blinds && startPos > n) && n == 0 ==> r == Err(NoPlayers))
        && (!(blinds && startPos > n) && 0 < n <= startPos ==> r == Err(SeatOutOfRange))
        && (r.Ok? <==> startPos < n)
        && (blinds && startPos <= n ==> PostedUpTo(s0, Stakes(ps), n, startPos, 5, 10))
        && (!(blinds && startPos <= n) ==> Stakes(ps) == s0)
        && (r.Ok? ==> r.value == (if blinds then BlindBets(ps, n, startPos, 5, 10) else [])
                      && ChipsAccounted(ps, s0, Stakes(ps), r.value))
    {
      var ps := pot.eligible;
      var n := |ps|;
      ghost var s0 := Stakes(ps);
      var ledger := [];
      if blinds {
        var posted := AssignBlinds(5, 10);
        if posted.Err? {
          return Err(posted.error);
        }
        ledger := posted.value;
      }
      if n == 0 {
        return Err(NoPlayers);
      }
      if startPos >= n {
        return Err(SeatOutOfRange);
      }
      if blinds {
        BlindsAccounted(ps, s0, Stakes(ps), startPos, 5, 10);
      } else {
        NothingPosted(ps, s0);
      }
      r := Ok(ledger);
    }

    /**
     * The end of `run_bet_round` (hand.py lines 255-280): the round's ledger
     * is settled into the pots, folded players leave the active pot, and the
     * hand ends with a sole survivor or goes on with the start seat wrapped
     * to the players left. No player's chips or status change.
     */
    method Resolve(ledger: seq<Bet<HandPlayer>>) returns (outcome: Result<RoundEnd, Fault>)
      requires Valid()
      requires (forall j :: 0 <= j < |ledger| ==> ledger[j].who in pot.eligible) && DistinctOwners(ledger)
      modifies `pot, `pots, `startPos
      ensures Stakes(old(pot.eligible)) == old(Stakes(pot.eligible))
      ensures Valid()
      ensures pots == Resolved(old(pots), ledger)
      ensures TotalAmount(pots) == old(TotalAmount(pots)) + Sum(ledger)
      ensures pot.level == old(pot.level) + MaxRaise(ledger)
      ensures forall k :: 0 <= k < |pot.eligible| ==> pot.eligible[k] in old(pot.eligible) && !pot.eligible[k].folded
      ensures |pot.eligible| == 0 ==> outcome == Err(NobodyLeft)
      ensures |pot.eligible| == 1 ==> outcome == Ok(OnePlayerLeft(pot.eligible[0]))
      ensures |pot.eligible| >= 2 ==> outcome == Ok(Continue) && startPos == old(startPos) % |pot.eligible|
      ensures |pot.eligible| < 2 ==> startPos == old(startPos)
    {
      ghost var e0 := pot.eligible;
      SettleLedger(ledger, e0);
      ghost var e1, total1, level1, settled := pot.eligible, TotalAmount(pots), pot.level, pots;
      outcome := DropFolded(e0);
      assert TotalAmount(pots) == total1 && pot.level == level1;
      assert pots == settled[|settled| - 1 := settled[|settled| - 1].(eligible := Unfolded(e1))];
      forall k | 0 <= k < |pot.eligible|
        ensures pot.eligible[k] in e0
      {
        var j :| 0 <= j < |e1| && e1[j] == pot.eligible[k];
      }
    }

    /**
     * Lines 277-280: the folded players leave the active pot, which keeps its
     * chips; a sole player left wins, and otherwise the start seat wraps to
     * the players still in. With nobody left, `playing_players[0]` fails.
     * The players `ps` (any of them) keep their chips and status.
     */
    method DropFolded(ghost ps: seq<HandPlayer>) returns (outcome: Result<RoundEnd, Fault>)
      requires Valid()
      modifies `pot, `pots, `startPos
      ensures pots == old(pots)[|old(pots)| - 1 := old(pot).(eligible := Unfolded(old(pot.eligible)))]
      ensures Valid()
      ensures TotalAmount(pots) == old(TotalAmount(pots)) && pot.level == old(pot.level)
      ensures forall k :: 0 <= k < |pot.eligible| ==> pot.eligible[k] in old(pot.eligible) && !pot.eligible[k].folded
      ensures Stakes(ps) == old(Stakes(ps))
      ensures |pot.eligible| == 0 ==> outcome == Err(NobodyLeft)
      ensures |pot.eligible| == 1 ==> outcome == Ok(OnePlayerLeft(pot.eligible[0]))
      ensures |pot.eligible| >= 2 ==> outcome == Ok(Continue) && startPos == old(startPos) % |pot.eligible|
      ensures |pot.eligible| < 2 ==> startPos == old(startPos)
    {
      ghost var st := Stakes(ps);
      var left := Unfolded(pot.eligible);
      UnfoldedMembers(pot.eligible);
      LeavingKeepsAmounts(pots, left);
      pot := pot.(eligible := left);
      pots := pots[|pots| - 1 := pot];
      var count := |left|;
      if count == 0 {
        outcome := Err(NobodyLeft);
      } else if count == 1 {
        outcome := Ok(OnePlayerLeft(left[0]));
      } else {
        startPos := startPos % count;
        outcome := Ok(Continue);
      }
      assert Stakes(ps) == st;
    }

    /**
     * `reveal_cards` (hand.py lines 307-313): up to `num` face-down cards are
     * turned up, in the order they were dealt; no card changes pile otherwise.
     */
    method RevealCards(num: nat)
      modifies `faceUp, `faceDown
      ensures (faceUp, faceDown) == Reveal(old(faceUp), old(faceDown), num)
      ensures faceUp + faceDown == old(faceUp + faceDown)
      ensures old(CardsConserved()) ==> CardsConserved()
    {
      ghost var up0, down0 := faceUp, faceDown;
      var k := if num <= |faceDown| then num else |faceDown|;
      var cards := faceDown[..k];
      faceDown := faceDown[k..];
      faceUp := faceUp + cards;
      assert down0 == cards + faceDown;
      assert faceUp + faceDown == up0 + down0;
      assert (faceUp, faceDown) == Reveal(up0, down0, num);
      assert multiset(faceUp) + multiset(faceDown) == multiset(up0) + multiset(down0) by {
        assert multiset(faceUp + faceDown) == multiset(up0 + down0);
      }
      RegroupedAccounted(deck, discard, hands, up0, down0, faceUp, faceDown, dealt);
    }

    /**
     * `put_cards_back_in_deck` (hand.py lines 105-109): the discard pile, the
     * hole cards and both community piles go back under the deck, which then
     * holds every card the hand was given.
     */
    method PutCardsBackInDeck()
      modifies `deck
      ensures deck == old(deck) + discard + Flatten(hands) + faceUp + faceDown
      ensures old(CardsConserved()) ==> multiset(deck) == multiset(dealt)
    {
      deck := deck + discard;
      deck := deck + Flatten(hands);
      deck := deck + faceUp;
      deck := deck + faceDown;
    }

    /**
     * `assign_blinds` (hand.py lines 161-186): with `n` players in the active
     * pot, the player at seat `(start − 1) mod n` posts the big blind and,
     * with more than two players, the one at `(start − 2) mod n` the small
     * blind; the wagers come back in seat order. A start seat beyond `n`, or
     * a small blind above the big one, is refused before anything is posted.
     */
    method AssignBlinds(small: int, big: int) returns (r: Result<seq<Bet<HandPlayer>>, Fault>)
      requires Valid()
      modifies pot.eligible
      ensures var ps, n := pot.eligible, |pot.eligible|;
        && (startPos > n ==> r == Err(StartTooLarge))
        && (startPos <= n && small > big ==> r == Err(SmallAboveBig))
        && (r.Err? ==> Stakes(ps) == old(Stakes(ps)))
        && (startPos <= n && small <= big ==>
             && r == Ok(BlindBets(ps, n, startPos, small, big))
             && PostedUpTo(old(Stakes(ps)), Stakes(ps), n, startPos, small, big))
    {
      var ps := pot.eligible;
      var n := |ps|;
      if startPos > n {
        return Err(StartTooLarge);
      }
      if small > big {
        return Err(SmallAboveBig);
      }
      var bets := PostBlinds(ps, startPos, small, big);
      r := Ok(bets);
    }

    /**
     * `call_bet` (hand.py lines 283-291): the player puts in the gap between
     * the level of the round and what they have bet, or all they hold when
     * that is less, and their ledger entry grows by the same amount.
     */
    method CallBet(p: HandPlayer, ledger: seq<Bet<HandPlayer>>) returns (diff: int, newLedger: seq<Bet<HandPlayer>>)
      modifies p
      ensures diff == CallAmount(pot.level + MaxRaise(ledger) - old(p.betAmount), old(p.holdings))
      ensures p.holdings == old(p.holdings) - diff && p.betAmount == old(p.betAmount) + diff
      ensures p.folded == old(p.folded)
      ensures newLedger == Recorded(ledger, p, diff)
    {
      var currentMaxBet := pot.level + MaxRaise(ledger);
      diff := CallAmount(currentMaxBet - p.betAmount, p.holdings);
      assert diff == CallAmount(pot.level + MaxRaise(ledger) - old(p.betAmount), old(p.holdings));
      p.Bet(diff);
      newLedger := Recorded(ledger, p, diff);
    }

    /**
     * `raise_bet` (hand.py lines 293-305): the player puts in the gap plus the
     * raise read from the action. An action without a readable amount, or a
     * raise the player cannot pay, fails before anything changes.
     */
    method RaiseBet(p: HandPlayer, action: string, ledger: seq<Bet<HandPlayer>>)
      returns (r: Result<int, RaiseFault>, newLedger: seq<Bet<HandPlayer>>)
      modifies p
      ensures var gap := pot.level + MaxRaise(ledger) - old(p.betAmount);
        r == match GetRaiseAmount(action)
             case Err(e) => Err(e)
             case Ok(n) => if old(p.holdings) < gap + n then Err(CannotAfford) else Ok(gap + n)
      ensures r.Err? ==> unchanged(p) && newLedger == ledger
      ensures r.Ok? ==>
        && p.holdings == old(p.holdings) - r.value && p.betAmount == old(p.betAmount) + r.value
        && p.folded == old(p.folded)
        && newLedger == Recorded(ledger, p, r.value)
    {
      newLedger := ledger;
      var amount := GetRaiseAmount(action);
      if amount.Err? {
        return Err(amount.error), ledger;
      }
      var currentMaxBet := pot.level + MaxRaise(ledger);
      var diff := (currentMaxBet - p.betAmount) + amount.value;
      if p.holdings < diff {
        return Err(CannotAfford), ledger;
      }
      p.Bet(diff);
      newLedger := Recorded(ledger, p, diff);
      r := Ok(diff);
    }

    /**
     * One pass of the turn loop's body (hand.py lines 231-246): the action is
     * carried out when the loop accepts it, and otherwise nothing changes.
     */
    method Act(p: HandPlayer, action: string, options: seq<string>, ledger: seq<Bet<HandPlayer>>)
      returns (accepted: bool, newLedger: seq<Bet<HandPlayer>>, raised: bool)
      modifies p
      ensures var m := MoveOf(action, options, pot.level + MaxRaise(ledger) - old(p.betAmount), old(p.holdings));
        && accepted == m.Some?
        && StakeOf(p) == Moved(old(StakeOf(p)), m)
        && newLedger == Logged(ledger, p, m) && raised == Raises(m)
    {
      accepted, newLedger, raised := false, ledger, false;
      match Classify(action, options) {
        case ChooseFold =>
          p.Fold();
          accepted := true;
        case ChooseCall =>
          newLedger := CallTurn(p, action, options, ledger);
          accepted := true;
        case ChooseRaise(_) =>
          accepted, newLedger := RaiseTurn(p, action, options, ledger);
          raised := accepted;
        case Rejected =>
      }
    }

    /** A call accepted by the turn loop is the move `MoveOf` describes. */
    method CallTurn(p: HandPlayer, action: string, options: seq<string>, ledger: seq<Bet<HandPlayer>>)
      returns (newLedger: seq<Bet<HandPlayer>>)
      requires Classify(action, options) == ChooseCall
      modifies p
      ensures var m := MoveOf(action, options, pot.level + MaxRaise(ledger) - old(p.betAmount), old(p.holdings));
        && m.Some? && !Raises(m)
        && StakeOf(p) == Moved(old(StakeOf(p)), m)
        && newLedger == Logged(ledger, p, m)
    {
      ghost var gap, holdings, st0 := pot.level + MaxRaise(ledger) - p.betAmount, p.holdings, StakeOf(p);
      var diff;
      diff, newLedger := CallBet(p, ledger);
      CallOutcome(action, options, gap, holdings, diff, st0, StakeOf(p), ledger, newLedger, p);
    }

    /** A raise offered to the player is the move `MoveOf` describes: accepted exactly when it is affordable. */
    method RaiseTurn(p: HandPlayer, action: string, options: seq<string>, ledger: seq<Bet<HandPlayer>>)
      returns (accepted: bool, newLedger: seq<Bet<HandPlayer>>)
      requires Classify(action, options).ChooseRaise?
      modifies p
      ensures var m := MoveOf(action, options, pot.level + MaxRaise(ledger) - old(p.betAmount), old(p.holdings));
        && accepted == m.Some? && (accepted ==> Raises(m))
        && StakeOf(p) == Moved(old(StakeOf(p)), m)
        && newLedger == Logged(ledger, p, m)
    {
      ghost var gap, holdings, st := pot.level + MaxRaise(ledger) - p.betAmount, p.holdings, StakeOf(p);
      var r;
      r, newLedger := RaiseBet(p, action, ledger);
      RaiseOutcome(action, options, gap, holdings, r, st, StakeOf(p), ledger, newLedger, p);
      accepted := r.Ok?;
    }

    /**
     * One player's turn (hand.py lines 226-246): actions are read from
     * position `from` on until one is accepted; refused ones (an unknown
     * command, a raise not offered, unreadable or unaffordable) are skipped.
     * `taken` is the position of the accepted action, which then has its
     * effect, or `|actions|` when the actions ran out, and then nothing has
     * changed.
     */
    method TakeTurn(p: HandPlayer, options: seq<string>, actions: seq<string>, from: nat, ledger: seq<Bet<HandPlayer>>)
      returns (taken: nat, newLedger: seq<Bet<HandPlayer>>, raised: bool)
      requires from <= |actions|
      modifies p
      ensures taken == FirstAccepted(actions, from, options, pot.level + MaxRaise(ledger) - old(p.betAmount), old(p.holdings))
      ensures var m := if taken < |actions|
                       then MoveOf(actions[taken], options, pot.level + MaxRaise(ledger) - old(p.betAmount), old(p.holdings))
                       else None;
        && StakeOf(p) == Moved(old(StakeOf(p)), m)
        && newLedger == Logged(ledger, p, m) && raised == Raises(m)
    {
      ghost var gap, holdings, st0 := pot.level + MaxRaise(ledger) - p.betAmount, p.holdings, StakeOf(p);
      taken, newLedger, raised := from, ledger, false;
      while taken < |actions|
        invariant from <= taken <= |actions|
        invariant FirstAccepted(actions, taken, options, gap, holdings)
               == FirstAccepted(actions, from, options, gap, holdings)
        invariant StakeOf(p) == st0 && newLedger == ledger && !raised
        decreases |actions| - taken
      {
        ghost var m := MoveOf(actions[taken], options, gap, holdings);
        assert gap == pot.level + MaxRaise(ledger) - p.betAmount && holdings == p.holdings;
        ghost var before := StakeOf(p);
        var accepted;
        accepted, newLedger, raised := Act(p, actions[taken], options, ledger);
        assert accepted == m.Some? && StakeOf(p) == Moved(before, m);
        assert newLedger == Logged(ledger, p, m) && raised == Raises(m);
        if accepted {
          assert FirstAccepted(actions, taken, options, gap, holdings) == taken;
          return;
        }
        assert FirstAccepted(actions, taken + 1, options, gap, holdings)
            == FirstAccepted(actions, taken, options, gap, holdings);
        taken := taken + 1;
      }
    }

    /**
     * `decide_winner` (hand.py lines 316-338) with `make_winner` and
     * `make_draw` (lines 137-148), messages left out: the players of the
     * active pot are scored by the evaluator `eval` on their hole cards and
     * the face-up cards, and paid as `Decide` rules. With fewer than two
     * players, `scores[1]` fails and nobody is paid.
     */
    method DecideWinner(eval: seq<Card> -> Rank) returns (r: Result<Decision<HandPlayer>, Fault>)
      requires Valid()
      modifies pot.eligible
      ensures var ps := pot.eligible;
        && (r.Err? <==> |ps| < 2)
        && (r.Err? ==> r.error == TooFewToShow)
        && (r.Ok? ==> Decide(Scores(ps, faceUp, eval)) == Some(r.value))
        && forall k :: 0 <= k < |ps| ==>
             StakeOf(ps[k]) == Credited(old(StakeOf(ps[k])), if r.Ok? then Share(r.value, ps[k], pot.amount) else 0)
    {
      var ps := pot.eligible;
      var scores := Scores(ps, faceUp, eval);
      var d := Decide(scores);
      if d.None? {
        return Err(TooFewToShow);
      }
      ShowdownPaysPot(ps, faceUp, eval, pot.amount);
      match d.value {
        case Winner(w) =>
          MakeWinner(w, ps);
        case Draw(a, b) =>
          MakeDraw(a, b, ps);
      }
      r := Ok(d.value);
    }

    /** `make_winner` (hand.py lines 137-141): the winner wins the active pot. */
    method MakeWinner(winner: HandPlayer, ghost ps: seq<HandPlayer>)
      modifies winner
      ensures forall k :: 0 <= k < |ps| ==>
        StakeOf(ps[k]) == Credited(old(StakeOf(ps[k])), Share(Winner(winner), ps[k], pot.amount))
    {
      winner.Win(pot.amount);
    }

    /** `make_draw` (hand.py lines 143-148): each of the two wins half the active pot. */
    method MakeDraw(first: HandPlayer, second: HandPlayer, ghost ps: seq<HandPlayer>)
      modifies first, second
      ensures forall k :: 0 <= k < |ps| ==>
        StakeOf(ps[k]) == Credited(old(StakeOf(ps[k])), Share(Draw(first, second), ps[k], pot.amount))
    {
      var half := pot.amount / 2;
      first.Win(half);
      second.Win(half);
    }
  }
}
