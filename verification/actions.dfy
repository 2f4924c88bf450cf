/**
 * The text protocol of a turn: the option list a player is offered and the
 * parsing of `"Raise <n>"` (get_players_options and get_raise_amount in hand.py).
 */
module Actions {
  import opened Outcomes

  /**
   * The options offered to a player (hand.py lines 69-74). `currentBet` is the
   * level the caller passes in; `hasBet` holds the IDs of players already
   * prompted this round.
   */
  function GetPlayersOptions(id: nat, holdings: int, betAmount: int, currentBet: int, hasBet: set<nat>): (options: seq<string>)
    ensures |options| >= 2 && options[0] == "Fold" && options[1] == "Call"
    ensures "Raise" in options <==> id !in hasBet && holdings > currentBet - betAmount
    ensures options == ["Fold", "Call"] || options == ["Fold", "Call", "Raise"]
  {
    var options := ["Fold", "Call"];
    var diff := currentBet - betAmount;
    if id !in hasBet && holdings > diff then options + ["Raise"] else options
  }

  /** Once a player has been prompted this round, they are never offered Raise again. */
  lemma {:induction false} RaiseOnlyOnFirstTurn(id: nat, holdings: int, betAmount: int, currentBet: int, hasBet: set<nat>)
    ensures "Raise" !in GetPlayersOptions(id, holdings, betAmount, currentBet, hasBet + {id})
  {
  }

  function SpaceCount(s: string): nat
  {
    if |s| == 0 then 0 else (if s[0] == ' ' then 1 else 0) + SpaceCount(s[1..])
  }

  /**
   * Python's `str.split(" ")`: cut at every single space, keeping empty pieces,
   * so the result has one more piece than the string has spaces.
   */
  function Split(s: string): (pieces: seq<string>)
    ensures |pieces| == SpaceCount(s) + 1
    ensures forall k :: 0 <= k < |pieces| ==> ' ' !in pieces[k]
    decreases |s|
  {
    if |s| == 0 then [""]
    else
      var rest := Split(s[1..]);
      if s[0] == ' ' then [""] + rest
      else
        assert forall k :: 1 <= k < |rest| ==> ' ' !in rest[k];
        [[s[0]] + rest[0]] + rest[1..]
  }

  /** `" ".join(pieces)`: the inverse of Split. */
  function Join(pieces: seq<string>): string
  {
    if |pieces| == 0 then ""
    else if |pieces| == 1 then pieces[0]
    else pieces[0] + " " + Join(pieces[1..])
  }

  /** Joining the pieces with single spaces gives back the action text. */
  lemma {:induction false} JoinSplit(s: string)
    ensures Join(Split(s)) == s
    decreases |s|
  {
    if |s| > 0 {
      JoinSplit(s[1..]);
      var rest := Split(s[1..]);
      if s[0] == ' ' {
        assert ([""] + rest)[1..] == rest;
      } else {
        var pieces := [[s[0]] + rest[0]] + rest[1..];
        assert [s[0]] + s[1..] == s;
        if |rest| > 1 {
          assert pieces[1..] == rest[1..];
          assert Join(rest) == rest[0] + " " + Join(rest[1..]);
        }
      }
    }
  }

  /** Two space-free words joined by one space split back into those two words. */
  lemma {:induction false} SplitTwoWords(a: string, b: string)
    requires ' ' !in a && ' ' !in b
    ensures Split(a + " " + b) == [a, b]
    decreases |a|
  {
    if |a| == 0 {
      assert (" " + b)[1..] == b;
      SplitOneWord(b);
    } else {
      assert (a + " " + b)[1..] == a[1..] + " " + b;
      SplitTwoWords(a[1..], b);
      assert [a[0]] + a[1..] == a;
    }
  }

  lemma {:induction false} SplitOneWord(b: string)
    requires ' ' !in b
    ensures Split(b) == [b]
    decreases |b|
  {
    if |b| > 0 {
      SplitOneWord(b[1..]);
      assert [b[0]] + b[1..] == b;
    }
  }

  predicate IsDigit(c: char)
  {
    '0' <= c <= '9'
  }

  predicate AllDigits(s: string)
  {
    forall k :: 0 <= k < |s| ==> IsDigit(s[k])
  }

  /** The value of a string of decimal digits, read most significant first. */
  function DigitsValue(s: string): nat
    requires AllDigits(s)
  {
    if |s| == 0 then 0 else DigitsValue(s[..|s| - 1]) * 10 + (s[|s| - 1] as int - '0' as int)
  }

  /** Python's `int(token)` on an optional sign followed by one or more ASCII digits; anything else is a ValueError. */
  function ParseInt(token: string): Option<int>
  {
    if |token| > 0 && (token[0] == '-' || token[0] == '+') then
      if |token| > 1 && AllDigits(token[1..]) then
        Some(if token[0] == '-' then -(DigitsValue(token[1..]) as int) else DigitsValue(token[1..]))
      else None
    else if |token| > 0 && AllDigits(token) then Some(DigitsValue(token))
    else None
  }

  /** The decimal digits of `n`, most significant first. */
  function Decimal(n: nat): (s: string)
    ensures |s| > 0 && AllDigits(s)
  {
    if n < 10 then [('0' as int + n) as char]
    else Decimal(n / 10) + [('0' as int + n % 10) as char]
  }

  /** The decimal text of an integer, with a leading minus when negative. */
  function IntToString(i: int): string
  {
    if i < 0 then "-" + Decimal(-i) else Decimal(i)
  }

  lemma {:induction false} DecimalValue(n: nat)
    ensures DigitsValue(Decimal(n)) == n
  {
    if n >= 10 {
      DecimalValue(n / 10);
      var s := Decimal(n);
      assert s[..|s| - 1] == Decimal(n / 10);
    }
  }

  /** Reading back the decimal text of any integer gives that integer. */
  lemma {:induction false} ParseIntRoundTrip(i: int)
    ensures ParseInt(IntToString(i)) == Some(i)
  {
    if i < 0 {
      DecimalValue(-i);
      assert IntToString(i)[1..] == Decimal(-i);
    } else {
      DecimalValue(i);
    }
  }

  /** Why a raise is refused; each is caught in the turn loop and the player is asked again. */
  datatype RaiseFault = NoAmount | NotANumber | CannotAfford

  /**
   * `get_raise_amount` (hand.py lines 76-80): the action must split on `" "`
   * into exactly two pieces, and the second must be an integer.
   */
  function GetRaiseAmount(action: string): (r: Result<int, RaiseFault>)
    ensures r.Ok? <==> SpaceCount(action) == 1 && ParseInt(Split(action)[1]).Some?
    ensures SpaceCount(action) != 1 ==> r == Err(NoAmount)
    ensures r.Ok? ==> Some(r.value) == ParseInt(Split(action)[1])
  {
    var pieces := Split(action);
    if |pieces| != 2 then Err(NoAmount)
    else match ParseInt(pieces[1])
      case None => Err(NotANumber)
      case Some(n) => Ok(n)
  }

  /** Any word without spaces, a space, then the decimal text of `n`: the amount read is `n`. */
  lemma {:induction false} GetRaiseAmountRoundTrip(word: string, n: int)
    requires ' ' !in word
    ensures GetRaiseAmount(word + " " + IntToString(n)) == Ok(n)
  {
    var text := IntToString(n);
    assert ' ' !in text by {
      if n < 0 {
        assert text == "-" + Decimal(-n);
        assert forall k :: 1 <= k < |text| ==> text[k] == Decimal(-n)[k - 1];
      }
    }
    SplitTwoWords(word, text);
    ParseIntRoundTrip(n);
  }

  /** The syntactic reading of one action line against the options offered (hand.py lines 232-244). */
  datatype Choice = ChooseFold | ChooseCall | ChooseRaise(amount: int) | Rejected

  /**
   * How the turn loop reads an action: `"Fold"`, `"Call"`, or, when Raise is
   * offered, any text starting with `"Raise"` whose amount parses. Whether a
   * raise is affordable depends on the player and is checked afterwards.
   */
  function Classify(action: string, options: seq<string>): (c: Choice)
    ensures c == ChooseFold <==> action == "Fold"
    ensures c == ChooseCall <==> action == "Call"
    ensures c.ChooseRaise? <==> "Raise" in options && |action| >= 5 && action[..5] == "Raise" && GetRaiseAmount(action).Ok?
    ensures c.ChooseRaise? ==> GetRaiseAmount(action) == Ok(c.amount)
  {
    if action == "Fold" then ChooseFold
    else if action == "Call" then ChooseCall
    else if "Raise" in options && |action| >= 5 && action[..5] == "Raise" then
      match GetRaiseAmount(action)
      case Ok(n) => ChooseRaise(n)
      case Err(_) => Rejected
    else Rejected
  }
}
