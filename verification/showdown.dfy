/**
 * The choice of winner at the showdown (`decide_winner`, hand.py lines
 * 316-338): every remaining player is scored by the hand evaluator, the scores
 * are sorted strongest first, and the two strongest share the pot when they
 * tie; otherwise the strongest takes it.
 */
module Showdown {
  import opened Outcomes
  import opened Sorting

  /** What the evaluator reports for a set of cards: the combination's name and its strength. */
  datatype Rank = Rank(name: string, strength: int)

  /** One player's entry in `scores`. */
  datatype Score<P> = Score(who: P, rank: Rank)

  function Strength<P>(s: Score<P>): int
  {
    s.rank.strength
  }

  /** The key of a strongest-first sort. */
  function Weakness<P>(s: Score<P>): int
  {
    -s.rank.strength
  }

  /** `scores.sort(key=..., reverse=True)` (hand.py line 319). */
  function Ranked<P>(scores: seq<Score<P>>): (r: seq<Score<P>>)
    ensures |r| == |scores| && multiset(r) == multiset(scores)
    ensures forall i, j :: 0 <= i < j < |r| ==> Strength(r[i]) >= Strength(r[j])
  {
    var r := SortBy(scores, Weakness);
    assert forall i, j :: 0 <= i < j < |r| ==> Weakness(r[i]) <= Weakness(r[j]);
    r
  }

  /** The best strength among the scores, defined independently of the sort. */
  function MaxStrength<P>(scores: seq<Score<P>>): (m: int)
    requires |scores| > 0
    ensures forall i :: 0 <= i < |scores| ==> Strength(scores[i]) <= m
    ensures exists i :: 0 <= i < |scores| && Strength(scores[i]) == m
  {
    if |scores| == 1 then Strength(scores[0])
    else
      var rest := MaxStrength(scores[1..]);
      assert forall i :: 1 <= i < |scores| ==> scores[i] == scores[1..][i - 1];
      if Strength(scores[0]) >= rest then Strength(scores[0]) else rest
  }

  /** Holds for the scores of strength `m`. */
  function AtStrength<P>(m: int): Score<P> -> bool
  {
    s => Strength(s) == m
  }

  datatype Decision<P> = Winner(winner: P) | Draw(first: P, second: P)

  /**
   * Lines 318-338 without the messages: fewer than two scores make `scores[1]`
   * fail, which is `None` here.
   */
  function Decide<P>(scores: seq<Score<P>>): (d: Option<Decision<P>>)
    ensures d.None? <==> |scores| < 2
  {
    if |scores| < 2 then None
    else
      var r := Ranked(scores);
      if Strength(r[0]) == Strength(r[1]) then Some(Draw(r[0].who, r[1].who))
      else Some(Winner(r[0].who))
  }

  /** The first ranked score has the best strength. */
  lemma {:induction false} RankedFirstIsBest<P>(scores: seq<Score<P>>)
    requires |scores| > 0
    ensures Strength(Ranked(scores)[0]) == MaxStrength(scores)
  {
    var r := Ranked(scores);
    var m := MaxStrength(scores);
    var i :| 0 <= i < |scores| && Strength(scores[i]) == m;
    assert scores[i] in multiset(r);
    assert r[0] in multiset(scores);
  }

  /** On a strongest-first list, two or more share the top strength exactly when the second matches the first. */
  lemma {:induction false} TopCount<P>(r: seq<Score<P>>)
    requires |r| >= 2
    requires forall i, j :: 0 <= i < j < |r| ==> Strength(r[i]) >= Strength(r[j])
    ensures CountWhere(r, AtStrength(Strength(r[0]))) >= 2 <==> Strength(r[1]) == Strength(r[0])
  {
    var top := AtStrength(Strength(r[0]));
    assert CountWhere(r, top) == 1 + CountWhere(r[1..], top);
    assert CountWhere(r[1..], top) == (if top(r[1]) then 1 else 0) + CountWhere(r[2..], top) by {
      assert r[1..][1..] == r[2..];
    }
    if Strength(r[1]) != Strength(r[0]) {
      NoneAt(r[2..], Strength(r[0]));
    }
  }

  /** Nothing in a list strictly weaker than `m` has strength `m`. */
  lemma {:induction false} NoneAt<P>(s: seq<Score<P>>, m: int)
    requires forall i :: 0 <= i < |s| ==> Strength(s[i]) < m
    ensures CountWhere(s, AtStrength(m)) == 0
    decreases |s|
  {
    if |s| > 0 {
      NoneAt(s[1..], m);
    }
  }

  /** The showdown is a draw exactly when at least two scores share the best strength. */
  lemma {:induction false} DrawIffTie<P>(scores: seq<Score<P>>)
    requires |scores| >= 2
    ensures Decide(scores).value.Draw? <==> CountWhere(scores, AtStrength(MaxStrength(scores))) >= 2
  {
    var r := Ranked(scores);
    RankedFirstIsBest(scores);
    TopCount(r);
    SortCount(scores, Weakness, AtStrength(MaxStrength(scores)));
  }

  /** A sole winner has the best strength, and nobody else has it. */
  lemma {:induction false} WinnerIsStrongest<P>(scores: seq<Score<P>>, w: P)
    requires Decide(scores) == Some(Winner(w))
    ensures exists i :: 0 <= i < |scores| && scores[i].who == w && Strength(scores[i]) == MaxStrength(scores)
    ensures CountWhere(scores, AtStrength(MaxStrength(scores))) == 1
  {
    var i := FirstRankedAt(scores);
    assert CountWhere(scores, AtStrength(MaxStrength(scores))) < 2 by {
      DrawIffTie(scores);
    }
    AtLeastOne(scores, i, AtStrength(MaxStrength(scores)));
  }

  /** Where the first ranked score sits among the scores. */
  lemma {:induction false} FirstRankedAt<P>(scores: seq<Score<P>>) returns (i: nat)
    requires |scores| > 0
    ensures i < |scores| && scores[i] == Ranked(scores)[0]
    ensures Strength(scores[i]) == MaxStrength(scores)
  {
    RankedFirstIsBest(scores);
    var r := Ranked(scores);
    assert r[0] in multiset(scores);
    i :| 0 <= i < |scores| && scores[i] == r[0];
  }

  /** The two players who draw both have the best strength. */
  lemma {:induction false} DrawersAreStrongest<P>(scores: seq<Score<P>>, a: P, b: P)
    requires Decide(scores) == Some(Draw(a, b))
    ensures exists i :: 0 <= i < |scores| && scores[i].who == a && Strength(scores[i]) == MaxStrength(scores)
    ensures exists j :: 0 <= j < |scores| && scores[j].who == b && Strength(scores[j]) == MaxStrength(scores)
  {
    var r := Ranked(scores);
    RankedFirstIsBest(scores);
    assert r[0] in multiset(scores) && r[1] in multiset(scores);
    var i :| 0 <= i < |scores| && scores[i] == r[0];
    var j :| 0 <= j < |scores| && scores[j] == r[1];
  }

  /** The scores of strength `m`, in seat order. */
  function WithStrength<P>(scores: seq<Score<P>>, m: int): seq<Score<P>>
  {
    if |scores| == 0 then []
    else (if Strength(scores[0]) == m then [scores[0]] else []) + WithStrength(scores[1..], m)
  }

  /**
   * The stable sort keeps players of equal strength in seat order, so the
   * players who draw are the first two with the best strength, and a sole
   * winner is the only one.
   */
  lemma {:induction false} DecideFollowsSeatOrder<P>(scores: seq<Score<P>>)
    requires |scores| >= 2
    ensures var top, d := WithStrength(scores, MaxStrength(scores)), Decide(scores).value;
      && (d.Draw? ==> |top| >= 2 && d.first == top[0].who && d.second == top[1].who)
      && (d.Winner? ==> |top| == 1 && d.winner == top[0].who)
  {
    var m := MaxStrength(scores);
    RankedStable(scores, m);
    RankedFirstIsBest(scores);
    TopOfRanked(Ranked(scores), m);
  }

  /** The strongest-first sort keeps the scores of each strength in seat order. */
  lemma {:induction false} RankedStable<P>(scores: seq<Score<P>>, m: int)
    ensures WithStrength(Ranked(scores), m) == WithStrength(scores, m)
  {
    var r := Ranked(scores);
    assert WithKey(r, Weakness, -m) == WithKey(scores, Weakness, -m) by {
      assert r == SortBy(scores, Weakness);
      SortStable(scores, Weakness, -m);
    }
    StrengthIsKey(r, m);
    StrengthIsKey(scores, m);
  }

  lemma {:induction false} StrengthIsKey<P>(scores: seq<Score<P>>, m: int)
    ensures WithStrength(scores, m) == WithKey(scores, Weakness, -m)
    decreases |scores|
  {
    if |scores| > 0 {
      StrengthIsKey(scores[1..], m);
    }
  }

  /** The first entries of strength `m` on a strongest-first list led by strength `m`. */
  lemma {:induction false} TopOfRanked<P>(r: seq<Score<P>>, m: int)
    requires |r| >= 2 && Strength(r[0]) == m
    requires forall i, j :: 0 <= i < j < |r| ==> Strength(r[i]) >= Strength(r[j])
    ensures var top := WithStrength(r, m);
      && (Strength(r[1]) == m ==> |top| >= 2 && top[0] == r[0] && top[1] == r[1])
      && (Strength(r[1]) != m ==> top == [r[0]])
  {
    var tail := r[1..];
    assert WithStrength(r, m) == [r[0]] + WithStrength(tail, m);
    if Strength(r[1]) == m {
      assert WithStrength(tail, m) == [r[1]] + WithStrength(tail[1..], m);
    } else {
      forall i | 0 <= i < |tail|
        ensures Strength(tail[i]) < m
      {
        assert tail[i] == r[i + 1];
      }
      NoneOfStrength(tail, m);
    }
  }

  lemma {:induction false} NoneOfStrength<P>(s: seq<Score<P>>, m: int)
    requires forall i :: 0 <= i < |s| ==> Strength(s[i]) < m
    ensures WithStrength(s, m) == []
    decreases |s|
  {
    if |s| > 0 {
      NoneOfStrength(s[1..], m);
    }
  }

  lemma {:induction false} AtLeastOne<T>(s: seq<T>, i: nat, p: T -> bool)
    requires i < |s| && p(s[i])
    ensures CountWhere(s, p) >= 1
    decreases i
  {
    if i > 0 {
      AtLeastOne(s[1..], i - 1, p);
    }
  }

  /** The players the showdown names hold entries among the scores. */
  lemma {:induction false} DecidedAmongScores<P>(scores: seq<Score<P>>)
    requires |scores| >= 2
    ensures var d := Decide(scores).value;
      && (d.Winner? ==> exists i :: 0 <= i < |scores| && scores[i].who == d.winner)
      && (d.Draw? ==> exists i :: 0 <= i < |scores| && scores[i].who == d.first)
      && (d.Draw? ==> exists j :: 0 <= j < |scores| && scores[j].who == d.second)
  {
    var r := Ranked(scores);
    assert r[0] in multiset(scores) && r[1] in multiset(scores);
    var i :| 0 <= i < |scores| && scores[i] == r[0];
    var j :| 0 <= j < |scores| && scores[j] == r[1];
  }

  /** When no two entries name the same player, the two players who draw are different. */
  lemma {:induction false} DrawersDiffer<P>(scores: seq<Score<P>>)
    requires |scores| >= 2
    requires forall i, j :: 0 <= i < j < |scores| ==> scores[i].who != scores[j].who
    ensures Decide(scores).value.Draw? ==> Decide(scores).value.first != Decide(scores).value.second
  {
    var r := Ranked(scores);
    assert r[0] in multiset(scores) && r[1] in multiset(scores);
    var i :| 0 <= i < |scores| && scores[i] == r[0];
    var j :| 0 <= j < |scores| && scores[j] == r[1];
    if i == j {
      assert r == [r[0], r[1]] + r[2..];
      assert multiset(r)[r[0]] >= 2;
      OccursAtMostOnce(scores, r[0]);
      assert false;
    }
  }

  /** A sequence without repeated entries holds each value at most once. */
  lemma {:induction false} OccursAtMostOnce<P>(s: seq<Score<P>>, x: Score<P>)
    requires forall i, j :: 0 <= i < j < |s| ==> s[i].who != s[j].who
    ensures multiset(s)[x] <= 1
    decreases |s|
  {
    if |s| > 0 {
      assert s == [s[0]] + s[1..];
      OccursAtMostOnce(s[1..], x);
      assert forall j :: 0 <= j < |s[1..]| ==> s[1..][j] == s[j + 1];
    }
  }
}
