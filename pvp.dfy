/**
 * Interactive mode: every player picks one card and the players whose card
 * total lies closest to a secret target number 1..9 win.
 */
module Pvp {
  import opened Cards
  import opened Sets

  function Abs(x: int): int
  {
    if x < 0 then -x else x
  }

  /** Total of a single picked card, as the round computes it. */
  function PickTotal(card: int): int
  {
    CardValue(card) % 10
  }

  /** Distance of a picked card from the target. */
  function Distance(card: int, target: int): int
  {
    Abs(PickTotal(card) - target)
  }

  /** Every pick totals 0 (or there is no pick at all): the round has no winner. */
  predicate AllZero(choices: map<int, int>)
  {
    forall u :: u in choices ==> PickTotal(choices[u]) == 0
  }

  /** `m` is the least element of `s`. */
  predicate IsLeast(m: int, s: set<int>)
  {
    m in s && forall y :: y in s ==> m <= y
  }

  /** A finite, non-empty set of integers has a least element. */
  lemma {:induction false} LeastExists(s: set<int>)
    requires s != {}
    ensures exists m :: IsLeast(m, s)
    decreases |s|
  {
    Inhabited(s);
    var x :| x in s;
    if IsLeast(x, s) {
      return;
    }
    var z :| z in s && z < x;
    var rest := s - {x};
    assert z in rest;
    LeastExists(rest);
    var m :| IsLeast(m, rest);
    assert m <= z;
    forall y | y in s
      ensures m <= y
    {
      if y != x {
        assert y in rest;
      }
    }
    assert IsLeast(m, s);
  }

  /** The least element of a non-empty set, Python's `min`. */
  function SetMin(s: set<int>): (m: int)
    requires s != {}
    ensures m in s
    ensures forall y :: y in s ==> m <= y
  {
    LeastExists(s);
    var m :| IsLeast(m, s);
    m
  }

  /** Winners and per-player totals of an interactive round. */
  datatype PvpResult = PvpResult(winners: set<int>, totals: map<int, int>)

  /** The total of each chooser's pick. */
  function Totals(choices: map<int, int>): (totals: map<int, int>)
    ensures totals.Keys == choices.Keys
    ensures forall u :: u in totals ==> totals[u] == PickTotal(choices[u]) && 0 <= totals[u] <= 9
  {
    map u | u in choices :: PickTotal(choices[u])
  }

  /** The distance of each total from the target. */
  function Distances(totals: map<int, int>, target: int): map<int, int>
  {
    map u | u in totals :: Abs(totals[u] - target)
  }

  /** The values of `d`, the distances Python's `min` runs over. */
  function Spread(d: map<int, int>): set<int>
  {
    set u | u in d :: d[u]
  }

  /** The keys of `d` whose value is the least value of `d`. */
  function AtLeast(d: map<int, int>): (keys: set<int>)
    requires d != map[]
    ensures keys <= d.Keys
  {
    assert Spread(d) != {} by {
      HasKey(d);
      var k :| k in d;
      assert d[k] in Spread(d);
    }
    var least := SetMin(Spread(d));
    set u | u in d && d[u] == least
  }

  /**
   * Scores the picks against the target: a total per chooser; no winner
   * when there is no pick or every total is 0; otherwise the choosers whose
   * distance from the target is the least distance among all totals.
   */
  function DeterminePvpWinner(choices: map<int, int>, target: int): (r: PvpResult)
    ensures r.totals.Keys == choices.Keys
    ensures forall u :: u in r.totals ==> r.totals[u] == PickTotal(choices[u]) && 0 <= r.totals[u] <= 9
    ensures r.winners <= choices.Keys
  {
    var totals := Totals(choices);
    if totals == map[] || forall u :: u in totals ==> totals[u] == 0 then
      PvpResult({}, totals)
    else
      PvpResult(AtLeast(Distances(totals, target)), totals)
  }

  /** A key is at the least value exactly when no key has a smaller value; and some key is. */
  lemma AtLeastIsMinimal(d: map<int, int>)
    requires d != map[]
    ensures AtLeast(d) != {}
    ensures forall u :: u in AtLeast(d) <==> u in d && forall v :: v in d ==> d[u] <= d[v]
  {
    assert Spread(d) != {} by {
      HasKey(d);
      var k :| k in d;
      assert d[k] in Spread(d);
    }
    var least := SetMin(Spread(d));
    var w :| w in d && d[w] == least;
    assert w in AtLeast(d);
    forall u
      ensures u in AtLeast(d) <==> u in d && forall v :: v in d ==> d[u] <= d[v]
    {
      if u in AtLeast(d) {
        forall v | v in d
          ensures d[u] <= d[v]
        {
          assert d[v] in Spread(d);
        }
      }
      if u in d && forall v :: v in d ==> d[u] <= d[v] {
        assert d[u] in Spread(d);
        assert d[u] <= d[w];
      }
    }
  }

  /** The round has no winner exactly when every pick totals 0, nobody picking included. */
  lemma NoWinnerIffAllZero(choices: map<int, int>, target: int)
    ensures DeterminePvpWinner(choices, target).winners == {} <==> AllZero(choices)
  {
    var totals := Totals(choices);
    if AllZero(choices) {
      assert forall u :: u in totals ==> totals[u] == 0;
    } else {
      var someone :| someone in choices && PickTotal(choices[someone]) != 0;
      assert someone in totals && totals[someone] != 0;
      AtLeastIsMinimal(Distances(totals, target));
    }
  }

  /**
   * The winners of an interactive round: none exactly when every pick
   * totals 0 (or nobody picked); otherwise every winner is at the least
   * distance from the target among all choosers, and every chooser at that
   * distance wins, so a tie shares the win.
   */
  lemma PvpWinnersAreClosest(choices: map<int, int>, target: int)
    ensures var r := DeterminePvpWinner(choices, target);
      && (r.winners == {} <==> AllZero(choices))
      && forall u :: u in r.winners <==>
           u in choices && !AllZero(choices) &&
           forall v :: v in choices ==> Distance(choices[u], target) <= Distance(choices[v], target)
  {
    NoWinnerIffAllZero(choices, target);
    if !AllZero(choices) {
      var totals := Totals(choices);
      var distances := Distances(totals, target);
      assert totals != map[] && !(forall u :: u in totals ==> totals[u] == 0) by {
        var someone :| someone in choices && PickTotal(choices[someone]) != 0;
        assert someone in totals && totals[someone] != 0;
      }
      assert DeterminePvpWinner(choices, target).winners == AtLeast(distances);
      assert forall u :: u in distances <==> u in choices;
      assert forall u :: u in choices ==> distances[u] == Distance(choices[u], target);
      AtLeastIsMinimal(distances);
    }
  }

  /** Target 7, one player picks an 8 and another a 5: only the first wins. */
  lemma ClosestPickWins()
    ensures DeterminePvpWinner(map[1 := 8, 2 := 5], 7).winners == {1}
  {
    var choices := map[1 := 8, 2 := 5];
    assert Distance(choices[1], 7) == 1 && Distance(choices[2], 7) == 2;
    assert !AllZero(choices);
    PvpWinnersAreClosest(choices, 7);
    var r := DeterminePvpWinner(choices, 7);
    assert 1 in r.winners;
    assert 2 !in r.winners;
  }

  /**
   * Picks that are all zero-value cards (10, J, Q or K, that is ranks 10 and
   * up) give no winner, whatever the target.
   */
  lemma AllZeroValueCardsNoWinner(choices: map<int, int>, target: int)
    requires forall u :: u in choices ==> choices[u] >= 10
    ensures DeterminePvpWinner(choices, target).winners == {}
  {
    assert AllZero(choices) by {
      forall u | u in choices
        ensures PickTotal(choices[u]) == 0
      {
        assert CardValue(choices[u]) == 0;
      }
    }
    NoWinnerIffAllZero(choices, target);
  }
}
