/**
 * Card bookkeeping of a hand (hand.py lines 50-67): dealing two hole cards
 * to every player and the eight-card community deal with its burns. The deck
 * is a list whose end is its top; `pop()` takes the last card.
 */
module Cards {

  /** A playing card; its encoding belongs to the deck module, which is not part of this model. */
  datatype Card = Card(code: nat)

  /** All cards of a list of piles, pile after pile. */
  function Flatten(piles: seq<seq<Card>>): seq<Card>
  {
    if |piles| == 0 then [] else piles[0] + Flatten(piles[1..])
  }

  lemma {:induction false} FlattenFront(piles: seq<seq<Card>>)
    requires |piles| > 0
    ensures multiset(Flatten(piles)) == multiset(piles[0]) + multiset(Flatten(piles[1..]))
  {
  }

  lemma {:induction false} MultisetFront(s: seq<Card>)
    requires |s| > 0
    ensures multiset(s) == multiset{s[0]} + multiset(s[1..])
  {
    assert s == [s[0]] + s[1..];
  }

  lemma {:induction false} MultisetSplit(s: seq<Card>, k: nat)
    requires k <= |s|
    ensures multiset(s) == multiset(s[..k]) + multiset(s[k..])
  {
    assert s == s[..k] + s[k..];
  }

  /** Piles of two cards each, the first from `firsts` and the second from `seconds`, hold exactly those cards. */
  lemma {:induction false} PairedPiles(piles: seq<seq<Card>>, firsts: seq<Card>, seconds: seq<Card>)
    requires |firsts| == |seconds| == |piles|
    requires forall p :: 0 <= p < |piles| ==> piles[p] == [firsts[p], seconds[p]]
    ensures multiset(Flatten(piles)) == multiset(firsts) + multiset(seconds)
    decreases |piles|
  {
    if |piles| > 0 {
      PairedPiles(piles[1..], firsts[1..], seconds[1..]);
      FlattenFront(piles);
      MultisetFront(firsts);
      MultisetFront(seconds);
    }
  }

  /**
   * `deal_hands` (hand.py lines 50-58): two passes (the outer loop of two
   * iterations, written out), each popping one card for every player in seat
   * order. Popping from an empty list fails, so the deck must hold two cards
   * per player.
   */
  method DealHands(deck: seq<Card>, players: nat) returns (hands: seq<seq<Card>>, rest: seq<Card>)
    requires |deck| >= 2 * players
    ensures |hands| == players
    ensures forall p :: 0 <= p < players ==>
      hands[p] == [deck[|deck| - 1 - p], deck[|deck| - 1 - players - p]]
    ensures rest == deck[..|deck| - 2 * players]
    ensures multiset(rest) + multiset(Flatten(hands)) == multiset(deck)
  {
    var empty := seq(players, _ => []);
    var first, afterFirst := DealRound(empty, deck);
    hands, rest := DealRound(first, afterFirst);
    assert rest == deck[..|deck| - 2 * players] by {
      assert afterFirst == deck[..|deck| - players];
      assert |afterFirst| - players == |deck| - 2 * players;
    }
    forall p | 0 <= p < players
      ensures hands[p] == [deck[|deck| - 1 - p], deck[|deck| - 1 - players - p]]
    {
      assert afterFirst[|afterFirst| - 1 - p] == deck[|deck| - 1 - players - p];
    }
    assert multiset(rest) + multiset(Flatten(hands)) == multiset(deck) by {
      TwoRoundsOfCards(deck, players, hands);
    }
  }

  /** The hands dealt from `deck` are exactly the deck's top `2 * players` cards. */
  lemma {:induction false} TwoRoundsOfCards(deck: seq<Card>, players: nat, hands: seq<seq<Card>>)
    requires |deck| >= 2 * players && |hands| == players
    requires forall p :: 0 <= p < players ==>
      hands[p] == [deck[|deck| - 1 - p], deck[|deck| - 1 - players - p]]
    ensures multiset(deck[..|deck| - 2 * players]) + multiset(Flatten(hands)) == multiset(deck)
  {
    var top := Popped(deck, 2 * players);
    assert forall p :: 0 <= p < players ==> top[..players][p] == top[p] && top[players..][p] == top[players + p];
    PairedPiles(hands, top[..players], top[players..]);
    MultisetSplit(top, players);
    TopCards(deck, 2 * players);
    MultisetSplit(deck, |deck| - 2 * players);
    assert multiset(Flatten(hands)) == multiset(top) == multiset(deck[|deck| - 2 * players..]);
  }

  /** One round of `deal_hands`: the next card from the top to each player in turn. */
  method DealRound(hands: seq<seq<Card>>, deck: seq<Card>) returns (dealt: seq<seq<Card>>, rest: seq<Card>)
    requires |deck| >= |hands|
    ensures |dealt| == |hands|
    ensures forall q :: 0 <= q < |hands| ==> dealt[q] == hands[q] + [deck[|deck| - 1 - q]]
    ensures rest == deck[..|deck| - |hands|]
  {
    dealt, rest := hands, deck;
    for p := 0 to |hands|
      invariant |dealt| == |hands|
      invariant rest == deck[..|deck| - p]
      invariant forall q :: 0 <= q < p ==> dealt[q] == hands[q] + [deck[|deck| - 1 - q]]
      invariant forall q :: p <= q < |hands| ==> dealt[q] == hands[q]
    {
      var card := rest[|rest| - 1];
      dealt := dealt[p := dealt[p] + [card]];
      rest := rest[..|rest| - 1];
    }
  }

  /** The two piles the community deal feeds. */
  datatype Pile = Burn | Board

  /** The order of hand.py line 63: burn, three cards, burn, one card, burn, one card. */
  const DealOrder: seq<Pile> := [Burn, Board, Board, Board, Burn, Board, Burn, Board]

  /** The pops (counted from 0) that `DealOrder` sends to the board and to the burn pile. */
  const BoardPops: seq<nat> := [1, 2, 3, 5, 7]
  const BurnPops: seq<nat> := [0, 4, 6]

  /** How many of the first `i` pops of the community deal go to the board. */
  function BoardCount(i: nat): (c: nat)
    requires i <= |DealOrder|
    ensures c <= i
  {
    [0, 0, 1, 2, 3, 3, 4, 4, 5][i]
  }

  /** `BoardPops` and `BurnPops` list, in order, the positions of each pile in `DealOrder`. */
  lemma {:induction false} PopsFollowOrder(i: nat)
    requires i < |DealOrder|
    ensures DealOrder[i] == Board ==>
      BoardCount(i) < |BoardPops| && BoardPops[BoardCount(i)] == i && BoardCount(i + 1) == BoardCount(i) + 1
    ensures DealOrder[i] == Burn ==>
      i - BoardCount(i) < |BurnPops| && BurnPops[i - BoardCount(i)] == i && BoardCount(i + 1) == BoardCount(i)
  {
  }

  /** The top `k` cards in the order `pop()` returns them. */
  function Popped(deck: seq<Card>, k: nat): (r: seq<Card>)
    requires k <= |deck|
    ensures |r| == k && forall j :: 0 <= j < k ==> r[j] == deck[|deck| - 1 - j]
  {
    seq(k, j requires 0 <= j < k => deck[|deck| - 1 - j])
  }

  /** The cards of `top` at the given pops, in order. */
  function Picked(top: seq<Card>, pops: seq<nat>, count: nat): (r: seq<Card>)
    requires count <= |pops| && forall k :: 0 <= k < |pops| ==> pops[k] < |top|
    ensures |r| == count && forall k :: 0 <= k < count ==> r[k] == top[pops[k]]
  {
    seq(count, k requires 0 <= k < count => top[pops[k]])
  }

  /**
   * `deal_comm_cards` (hand.py lines 60-67): eight pops, routed to the burn
   * pile or to the community cards in `DealOrder`. Popping from an empty
   * list fails, so the deck must hold eight cards.
   */
  method DealCommunityCards(deck: seq<Card>, discard: seq<Card>) returns (board: seq<Card>, rest: seq<Card>, burned: seq<Card>)
    requires |deck| >= |DealOrder|
    ensures var n := |deck|;
      board == [deck[n - 2], deck[n - 3], deck[n - 4], deck[n - 6], deck[n - 8]]
    ensures var n := |deck|;
      burned == discard + [deck[n - 1], deck[n - 5], deck[n - 7]]
    ensures rest == deck[..|deck| - |DealOrder|]
  {
    ghost var top := Popped(deck, |DealOrder|);
    board, rest, burned := [], deck, discard;
    for i := 0 to |DealOrder|
      invariant rest == deck[..|deck| - i]
      invariant board == Picked(top, BoardPops, BoardCount(i))
      invariant burned == discard + Picked(top, BurnPops, i - BoardCount(i))
    {
      var card := rest[|rest| - 1];
      assert card == top[i];
      PileStep(top, i, board, burned[|discard|..]);
      if DealOrder[i] == Burn {
        burned := burned + [card];
      } else {
        board := board + [card];
      }
      rest := rest[..|rest| - 1];
    }
    FinalPiles(deck);
  }

  /** One pop of the community deal extends the pile `DealOrder` names. */
  lemma {:induction false} PileStep(top: seq<Card>, i: nat, board: seq<Card>, burns: seq<Card>)
    requires |top| == |DealOrder| && i < |DealOrder|
    requires board == Picked(top, BoardPops, BoardCount(i))
    requires burns == Picked(top, BurnPops, i - BoardCount(i))
    ensures DealOrder[i] == Board ==>
      board + [top[i]] == Picked(top, BoardPops, BoardCount(i + 1)) && burns == Picked(top, BurnPops, i + 1 - BoardCount(i + 1))
    ensures DealOrder[i] == Burn ==>
      board == Picked(top, BoardPops, BoardCount(i + 1)) && burns + [top[i]] == Picked(top, BurnPops, i + 1 - BoardCount(i + 1))
  {
    PopsFollowOrder(i);
  }

  /** After the eight pops the piles hold the cards `BoardPops` and `BurnPops` name. */
  lemma {:induction false} FinalPiles(deck: seq<Card>)
    requires |deck| >= |DealOrder|
    ensures var top, n := Popped(deck, |DealOrder|), |deck|;
      && Picked(top, BoardPops, 5) == [deck[n - 2], deck[n - 3], deck[n - 4], deck[n - 6], deck[n - 8]]
      && Picked(top, BurnPops, 3) == [deck[n - 1], deck[n - 5], deck[n - 7]]
  {
  }

  /** The community deal moves the top eight cards of the deck and loses none. */
  lemma {:induction false} CommunityCardsKept(deck: seq<Card>)
    requires |deck| >= |DealOrder|
    ensures var n := |deck|;
      multiset(deck[..n - 8])
        + multiset([deck[n - 2], deck[n - 3], deck[n - 4], deck[n - 6], deck[n - 8]])
        + multiset([deck[n - 1], deck[n - 5], deck[n - 7]])
      == multiset(deck)
  {
    var n := |deck|;
    var t := deck[n - 8..];
    MultisetSplit(deck, n - 8);
    EightCards(t);
    FiveCards(t[6], t[5], t[4], t[2], t[0]);
    ThreeCards(t[7], t[3], t[1]);
    Regroup(multiset(deck[..n - 8]), t[0], t[1], t[2], t[3], t[4], t[5], t[6], t[7]);
  }

  lemma {:induction false} FiveCards(a: Card, b: Card, c: Card, d: Card, e: Card)
    ensures multiset([a, b, c, d, e]) == multiset{a} + multiset{b} + multiset{c} + multiset{d} + multiset{e}
  {
    assert [a, b, c, d, e] == [a, b, c, d] + [e];
    assert [a, b, c, d] == [a, b, c] + [d];
    assert [a, b, c] == [a, b] + [c];
    assert [a, b] == [a] + [b];
  }

  lemma {:induction false} ThreeCards(a: Card, b: Card, c: Card)
    ensures multiset([a, b, c]) == multiset{a} + multiset{b} + multiset{c}
  {
    assert [a, b, c] == [a, b] + [c];
    assert [a, b] == [a] + [b];
  }

  lemma {:induction false} EightCards(t: seq<Card>)
    requires |t| == 8
    ensures multiset(t) == multiset{t[0]} + multiset{t[1]} + multiset{t[2]} + multiset{t[3]}
      + multiset{t[4]} + multiset{t[5]} + multiset{t[6]} + multiset{t[7]}
  {
    assert t == [t[0]] + t[1..];
    assert t[1..] == [t[1]] + t[2..];
    assert t[2..] == [t[2]] + t[3..];
    assert t[3..] == [t[3]] + t[4..];
    assert t[4..] == [t[4]] + t[5..];
    assert t[5..] == [t[5]] + t[6..];
    assert t[6..] == [t[6]] + t[7..];
    assert t[7..] == [t[7]];
  }

  /** The board cards and the burns together are the eight popped cards. */
  lemma {:induction false} Regroup(rest: multiset<Card>, a0: Card, a1: Card, a2: Card, a3: Card, a4: Card, a5: Card, a6: Card, a7: Card)
    ensures rest + (multiset{a6} + multiset{a5} + multiset{a4} + multiset{a2} + multiset{a0})
      + (multiset{a7} + multiset{a3} + multiset{a1})
      == rest + (multiset{a0} + multiset{a1} + multiset{a2} + multiset{a3} + multiset{a4} + multiset{a5} + multiset{a6} + multiset{a7})
  {
    forall c
      ensures (rest + (multiset{a6} + multiset{a5} + multiset{a4} + multiset{a2} + multiset{a0})
        + (multiset{a7} + multiset{a3} + multiset{a1}))[c]
        == (rest + (multiset{a0} + multiset{a1} + multiset{a2} + multiset{a3} + multiset{a4} + multiset{a5} + multiset{a6} + multiset{a7}))[c]
    {
    }
  }

  lemma {:induction false} PoppedNext(deck: seq<Card>, k: nat)
    requires 0 < k <= |deck|
    ensures Popped(deck, k) == Popped(deck, k - 1) + [deck[|deck| - k]]
  {
  }

  /** The popped cards are the top of the deck, in reverse. */
  lemma {:induction false} TopCards(deck: seq<Card>, k: nat)
    requires k <= |deck|
    ensures multiset(Popped(deck, k)) == multiset(deck[|deck| - k..])
    decreases k
  {
    if k > 0 {
      TopCards(deck, k - 1);
      PoppedNext(deck, k);
      MultisetFront(deck[|deck| - k..]);
      assert deck[|deck| - k..][1..] == deck[|deck| - (k - 1)..];
    }
  }
}
