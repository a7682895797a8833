/**
 * The punto-banco third-card rule.
 *
 * The bot deals a third card from a random generator while it applies
 * the rule; here the two cards that generator would yield are parameters:
 * `nextPlayer` is the card the player receives if the player draws, and
 * `nextBanker` the card the banker receives if the banker draws.
 */
module Tableau {
  import opened Cards

  /** Either hand's two-card total is a natural 8 or 9: nobody draws. */
  predicate IsNatural(player: seq<int>, banker: seq<int>)
  {
    HandTotal(player) >= 8 || HandTotal(banker) >= 8
  }

  /** The player draws on a total of 0..5 and stands on 6 or 7. */
  predicate PlayerDraws(playerTotal: int)
  {
    playerTotal <= 5
  }

  /**
   * Whether the banker draws after the player drew a third card worth
   * `playerThird`, as the chain of tests in the bot decides it.
   */
  predicate BankerDraws(bankerTotal: int, playerThird: int)
    ensures bankerTotal <= 2 ==> BankerDraws(bankerTotal, playerThird)
    ensures 7 <= bankerTotal ==> !BankerDraws(bankerTotal, playerThird)
    ensures 3 <= bankerTotal && playerThird == 8 ==> !BankerDraws(bankerTotal, playerThird)
  {
    if bankerTotal <= 2 then true
    else if bankerTotal == 3 && playerThird != 8 then true
    else if bankerTotal == 4 && playerThird in [2, 3, 4, 5, 6, 7] then true
    else if bankerTotal == 5 && playerThird in [4, 5, 6, 7] then true
    else if bankerTotal == 6 && playerThird in [6, 7] then true
    else false
  }

  /**
   * The banker's tableau as casinos print it: row t is the banker's total
   * 0..7, column p the value 0..9 of the player's third card; 'D' draws,
   * 'S' stands.
   */
  const PrintedTableau: seq<string> := [
    "DDDDDDDDDD",  // 0
    "DDDDDDDDDD",  // 1
    "DDDDDDDDDD",  // 2
    "DDDDDDDDSD",  // 3
    "SSDDDDDDSS",  // 4
    "SSSSDDDDSS",  // 5
    "SSSSSSDDSS",  // 6
    "SSSSSSSSSS"   // 7
  ]

  /** The bot's rule is the printed tableau, cell by cell. */
  lemma BankerDrawsIsPrintedTableau(t: int, p: int)
    requires 0 <= t <= 7 && 0 <= p <= 9
    ensures BankerDraws(t, p) <==> PrintedTableau[t][p] == 'D'
  {
    if t <= 2 {
    } else if t == 3 {
    } else if t == 4 {
    } else if t == 5 {
    } else if t == 6 {
    } else {
    }
  }

  /** Hands after the third-card step and whether each side drew. */
  datatype Draw = Draw(player: seq<int>, banker: seq<int>, playerDrew: bool, bankerDrew: bool)

  /**
   * The third-card rule as a function of the two starting hands. The
   * banker consults the tableau when the player's hand holds exactly three
   * cards afterwards (the bot tests the length, not the draw flag), and
   * otherwise draws on 0..5.
   */
  function ThirdCardRule(player: seq<int>, banker: seq<int>, nextPlayer: int, nextBanker: int): (d: Draw)
    ensures d.player == player + (if d.playerDrew then [nextPlayer] else [])
    ensures d.banker == banker + (if d.bankerDrew then [nextBanker] else [])
    ensures IsNatural(player, banker) ==> !d.playerDrew && !d.bankerDrew
    ensures !IsNatural(player, banker) ==> (d.playerDrew <==> HandTotal(player) <= 5)
  {
    if IsNatural(player, banker) then Draw(player, banker, false, false)
    else
      var playerDrew := PlayerDraws(HandTotal(player));
      var player' := if playerDrew then player + [nextPlayer] else player;
      var bankerDrew :=
        if |player'| == 3 then BankerDraws(HandTotal(banker), CardValue(player'[2]))
        else HandTotal(banker) <= 5;
      Draw(player', if bankerDrew then banker + [nextBanker] else banker, playerDrew, bankerDrew)
  }

  /**
   * The rule as the round applies it to two-card hands: a natural leaves
   * both hands alone; otherwise the player gains one card exactly on 0..5,
   * the banker gains at most one card, by the tableau when the player drew
   * and on 0..5 when the player stood, and each flag says whether that hand grew.
   */
  lemma ThirdCardRuleOnTwoCardHands(player: seq<int>, banker: seq<int>, nextPlayer: int, nextBanker: int)
    requires |player| == 2 && |banker| == 2
    ensures var d := ThirdCardRule(player, banker, nextPlayer, nextBanker);
      && (IsNatural(player, banker) ==> d == Draw(player, banker, false, false))
      && (!IsNatural(player, banker) ==>
            && (d.playerDrew <==> HandTotal(player) <= 5)
            && (d.bankerDrew <==>
                  if d.playerDrew then BankerDraws(HandTotal(banker), CardValue(nextPlayer))
                  else HandTotal(banker) <= 5))
      && d.player == player + (if d.playerDrew then [nextPlayer] else [])
      && d.banker == banker + (if d.bankerDrew then [nextBanker] else [])
      && (d.playerDrew <==> |d.player| == 3)
      && (d.bankerDrew <==> |d.banker| == 3)
  {
  }

  /**
   * The third-card step as the bot performs it: it appends the drawn
   * cards to the hands one after the other and reports the two draw flags.
   */
  method BaccaratThirdCard(player: seq<int>, banker: seq<int>, nextPlayer: int, nextBanker: int)
    returns (playerCards: seq<int>, bankerCards: seq<int>, playerDrew: bool, bankerDrew: bool)
    ensures Draw(playerCards, bankerCards, playerDrew, bankerDrew) == ThirdCardRule(player, banker, nextPlayer, nextBanker)
  {
    playerCards, bankerCards := player, banker;
    var playerTotal := HandTotal(playerCards);
    var bankerTotal := HandTotal(bankerCards);
    if playerTotal >= 8 || bankerTotal >= 8 {
      return playerCards, bankerCards, false, false;
    }
    playerDrew := playerTotal <= 5;
    if playerDrew {
      playerCards := playerCards + [nextPlayer];
    }
    bankerDrew := false;
    if |playerCards| == 3 {
      var playerThird := CardValue(playerCards[2]);
      if bankerTotal <= 2 {
        bankerDrew := true;
      } else if bankerTotal == 3 && playerThird != 8 {
        bankerDrew := true;
      } else if bankerTotal == 4 && playerThird in [2, 3, 4, 5, 6, 7] {
        bankerDrew := true;
      } else if bankerTotal == 5 && playerThird in [4, 5, 6, 7] {
        bankerDrew := true;
      } else if bankerTotal == 6 && playerThird in [6, 7] {
        bankerDrew := true;
      }
    } else if bankerTotal <= 5 {
      bankerDrew := true;
    }
    if bankerDrew {
      bankerCards := bankerCards + [nextBanker];
    }
  }
}
