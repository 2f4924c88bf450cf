/**
 * A player's state within one hand (`HandPlayer`, hand.py lines 5-18). The
 * base class `Player` of player.py is not part of this model; what the hand
 * relies on is stated here as its assumed behaviour: `bet` takes the amount
 * from the holdings, `win` adds to them, and `has_money` means the holdings
 * are positive.
 */
module Players {
  import opened Cards

  class HandPlayer {
    const id: nat
    /** The two hole cards dealt to this player (`self.hand`). */
    const hole: seq<Card>
    var holdings: int
    /** Everything this player has put in during the hand. */
    var betAmount: int
    var folded: bool

    /** `HandPlayer(player, hand)`: a fresh player who has bet nothing and not folded. */
    constructor (id: nat, holdings: int, hole: seq<Card>)
      ensures this.id == id && this.hole == hole && this.holdings == holdings
      ensures betAmount == 0 && !folded
    {
      this.id := id;
      this.hole := hole;
      this.holdings := holdings;
      betAmount := 0;
      folded := false;
    }

    /** Assumed `Player.has_money`. */
    predicate HasMoney()
      reads this
    {
      holdings > 0
    }

    /**
     * `bet` (hand.py lines 13-15): the amount leaves the holdings (assumed
     * `Player.bet`) and is added to the hand's running bet.
     */
    method Bet(amount: int)
      modifies this
      ensures holdings == old(holdings) - amount && betAmount == old(betAmount) + amount
      ensures folded == old(folded)
      ensures holdings + betAmount == old(holdings + betAmount)
    {
      holdings := holdings - amount;
      betAmount := betAmount + amount;
    }

    /** `fold` (hand.py lines 17-18): the flag is set and nothing else changes. */
    method Fold()
      modifies this
      ensures folded
      ensures holdings == old(holdings) && betAmount == old(betAmount)
    {
      folded := true;
    }

    /** Assumed `Player.win`: the amount is added to the holdings. */
    method Win(amount: int)
      modifies this
      ensures holdings == old(holdings) + amount
      ensures betAmount == old(betAmount) && folded == old(folded)
    {
      holdings := holdings + amount;
    }
  }

  /** No two players share an id (the betting ledger is keyed by id). */
  predicate DistinctIds(ps: seq<HandPlayer>)
  {
    forall i, j :: 0 <= i < j < |ps| ==> ps[i].id != ps[j].id
  }

  lemma {:induction false} DistinctIdsTail(ps: seq<HandPlayer>)
    requires DistinctIds(ps) && |ps| > 0
    ensures DistinctIds(ps[1..])
  {
    var tail := ps[1..];
    forall i, j | 0 <= i < j < |tail|
      ensures tail[i].id != tail[j].id
    {
      assert tail[i] == ps[i + 1] && tail[j] == ps[j + 1];
    }
  }

  /** A player's chips and status: what the turns of a betting round change. */
  datatype Stake = Stake(holdings: int, betAmount: int, folded: bool)

  function StakeOf(p: HandPlayer): Stake
    reads p
  {
    Stake(p.holdings, p.betAmount, p.folded)
  }

  function Stakes(ps: seq<HandPlayer>): (r: seq<Stake>)
    reads ps
    ensures |r| == |ps| && forall k :: 0 <= k < |ps| ==> r[k] == StakeOf(ps[k])
  {
    seq(|ps|, k requires 0 <= k < |ps| reads ps => StakeOf(ps[k]))
  }

  /** `[p for p in ps if not p.folded]` (hand.py lines 250 and 277), read off the players' stakes. */
  function Unfolded(ps: seq<HandPlayer>): (r: seq<HandPlayer>)
    reads ps
  {
    Survive(ps, Stakes(ps))
  }

  /** The players whose stake is not folded, in seat order. */
  function Survive(ps: seq<HandPlayer>, s: seq<Stake>): (r: seq<HandPlayer>)
    requires |s| == |ps|
    ensures |r| <= |ps|
  {
    if |ps| == 0 then []
    else if s[0].folded then Survive(ps[1..], s[1..])
    else [ps[0]] + Survive(ps[1..], s[1..])
  }

  /**
   * The filter keeps exactly the players whose stake is not folded, and
   * players with distinct ids stay distinct.
   */
  lemma {:induction false} SurviveMembers(ps: seq<HandPlayer>, s: seq<Stake>)
    requires |s| == |ps|
    ensures var r := Survive(ps, s);
      && (forall k :: 0 <= k < |r| ==> exists j :: 0 <= j < |ps| && r[k] == ps[j] && !s[j].folded)
      && (forall j :: 0 <= j < |ps| && !s[j].folded ==> ps[j] in r)
      && (DistinctIds(ps) ==> DistinctIds(r))
  {
    SurviveFrom(ps, s);
    SurviveKeeps(ps, s);
    if DistinctIds(ps) {
      SurviveDistinct(ps, s);
    }
  }

  /** Every survivor is a player whose stake is not folded. */
  lemma {:induction false} SurviveFrom(ps: seq<HandPlayer>, s: seq<Stake>)
    requires |s| == |ps|
    ensures forall k :: 0 <= k < |Survive(ps, s)| ==>
      exists j :: 0 <= j < |ps| && Survive(ps, s)[k] == ps[j] && !s[j].folded
    decreases |ps|
  {
    if |ps| > 0 {
      var rest := Survive(ps[1..], s[1..]);
      SurviveFrom(ps[1..], s[1..]);
      var r := Survive(ps, s);
      forall k | 0 <= k < |Survive(ps, s)|
        ensures exists j :: 0 <= j < |ps| && Survive(ps, s)[k] == ps[j] && !s[j].folded
      {
        if !s[0].folded && k == 0 {
          assert r[0] == ps[0];
        } else {
          var k' := if s[0].folded then k else k - 1;
          assert r[k] == rest[k'];
          var j :| 0 <= j < |ps[1..]| && rest[k'] == ps[1..][j] && !s[1..][j].folded;
          assert r[k] == ps[j + 1] && !s[j + 1].folded;
        }
      }
    } else {
      assert Survive(ps, s) == [];
    }
  }

  /** Every player whose stake is not folded survives. */
  lemma {:induction false} SurviveKeeps(ps: seq<HandPlayer>, s: seq<Stake>)
    requires |s| == |ps|
    ensures forall j :: 0 <= j < |ps| && !s[j].folded ==> ps[j] in Survive(ps, s)
    decreases |ps|
  {
    if |ps| > 0 {
      var rest := Survive(ps[1..], s[1..]);
      SurviveKeeps(ps[1..], s[1..]);
      var r := Survive(ps, s);
      assert forall x :: x in rest ==> x in r;
      forall j | 0 <= j < |ps| && !s[j].folded
        ensures ps[j] in r
      {
        if j > 0 {
          assert ps[j] == ps[1..][j - 1] && s[j] == s[1..][j - 1];
        }
      }
    }
  }

  /** Players with distinct ids stay distinct among the survivors. */
  lemma {:induction false} SurviveDistinct(ps: seq<HandPlayer>, s: seq<Stake>)
    requires |s| == |ps| && DistinctIds(ps)
    ensures DistinctIds(Survive(ps, s))
    decreases |ps|
  {
    if |ps| > 0 {
      var rest := Survive(ps[1..], s[1..]);
      DistinctIdsTail(ps);
      SurviveDistinct(ps[1..], s[1..]);
      if !s[0].folded {
        SurviveFrom(ps[1..], s[1..]);
        forall k | 0 <= k < |rest|
          ensures rest[k].id != ps[0].id
        {
          var j :| 0 <= j < |ps[1..]| && rest[k] == ps[1..][j] && !s[1..][j].folded;
          assert rest[k] == ps[j + 1];
        }
        var r := Survive(ps, s);
        assert r == [ps[0]] + rest;
        assert forall k :: 1 <= k < |r| ==> r[k] == rest[k - 1];
      }
    }
  }

  /** The players `Unfolded` keeps are exactly those who have not folded. */
  lemma {:induction false} UnfoldedMembers(ps: seq<HandPlayer>)
    ensures var r := Unfolded(ps);
      && |r| <= |ps|
      && (forall k :: 0 <= k < |r| ==> !r[k].folded && r[k] in ps)
      && (forall k :: 0 <= k < |ps| && !ps[k].folded ==> ps[k] in r)
      && (DistinctIds(ps) ==> DistinctIds(r))
  {
    var r := Unfolded(ps);
    SurviveMembers(ps, Stakes(ps));
    forall k | 0 <= k < |r|
      ensures !r[k].folded && r[k] in ps
    {
      var j :| 0 <= j < |ps| && r[k] == ps[j] && !Stakes(ps)[j].folded;
    }
  }
}
