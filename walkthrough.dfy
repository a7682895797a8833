/**
 * Two whole rounds driven through the session's handlers, as a group
 * would play them, to show that the handlers' contracts compose.
 */
module Walkthrough {
  import opened Options
  import opened Cards
  import opened Tableau
  import opened Pvp
  import opened Settlement
  import opened Sessions

  /**
   * The bot owner (id 100) opens a free game and switches on test mode, so
   * two players fill it; both confirm their bet and the target 7 is drawn.
   */
  method FreeTestGameAtCardSelection() returns (s: Session)
    ensures fresh(s) && s.Valid() && s.live && s.status == CardSelection && s.targetNumber == 7
    ensures s.players == [1, 2] && s.cardChoices == map[] && s.freePlay && s.bets.Keys == {1, 2} && s.mode == Interactive
  {
    s := new Session(100);
    var r := s.Start(100);
    r := s.EnableTestMode(100);
    assert s.Capacity() == 2;
    r := s.Join(1, false);
    r := s.Join(2, false);
    assert s.status == Betting && s.players == [1, 2];
    var deal := Deal(1, 1, 1, 1, 1, 1);
    var round;
    r, round := s.PlaceBet(1, Confirm, deal, 7, {});
    assert s.bets.Keys == {1};
    r, round := s.PlaceBet(2, Confirm, deal, 7, {});
  }

  /**
   * The two players pick an 8 and a 5 against the target 7: the 8 is
   * closer, so the first player alone wins, and a free game pays nobody.
   */
  method InteractiveFreeRound() returns (round: Option<Round>)
    ensures round.Some? && round.value.PvpRound?
    ensures round.value.winners == {1} && round.value.paid == map[]
  {
    var s := FreeTestGameAtCardSelection();
    SymbolOfRankRoundTrip(8);
    SymbolOfRankRoundTrip(5);
    var r;
    assert s.cardChoices[1 := 8] == map[1 := 8];
    assert 2 in s.players && 2 !in map[1 := 8];
    r, round := s.ChooseCard(1, CardToString(8), {});
    assert s.cardChoices == map[1 := 8];
    assert map[1 := 8][2 := 5] == map[1 := 8, 2 := 5];
    EightBeatsFive(s.stake, |s.bets|);
    r, round := s.ChooseCard(2, CardToString(5), {});
  }

  /**
   * Somebody presses an old "Simple" button during card selection. After
   * the last pick the results step fails, so nothing is settled, the game
   * stays in the playing phase, and a later start is refused as a running game.
   */
  method ModeSwitchDuringSelectionStrandsGame() returns (round: Option<Round>, restart: Reply)
    ensures round == None && restart == AlreadyRunning
  {
    var s := FreeTestGameAtCardSelection();
    var r := s.ChooseMode(Simple);
    SymbolOfRankRoundTrip(8);
    SymbolOfRankRoundTrip(5);
    assert 2 in s.players && 2 !in map[1 := 8];
    r, round := s.ChooseCard(1, CardToString(8), {});
    assert s.cardChoices == map[1 := 8] && s.status == CardSelection;
    assert forall p :: p in s.players ==> p in map[1 := 8][2 := 5];
    r, round := s.ChooseCard(2, CardToString(5), {});
    assert s.live && s.status == Playing;
    restart := s.Start(7);
  }

  /** The free round of picks 8 and 5 against target 7, computed from its definition. */
  lemma EightBeatsFive(stake: real, bettors: nat)
    ensures var r := PvpRoundOf(map[1 := 8, 2 := 5], 7, stake, bettors, true, {});
      r.PvpRound? && r.winners == {1} && r.paid == map[]
  {
    ClosestPickWins();
  }

  /**
   * The bot owner opens a simple-mode test game, sets the bet to 0.5, and
   * two players with wallets join.
   */
  method PaidSimpleGameAtBetting() returns (s: Session)
    ensures fresh(s) && s.Valid() && s.live && s.status == Betting && s.mode == Simple
    ensures s.players == [1, 2] && s.bets == map[] && !s.freePlay && s.stake == 0.5 && s.ownerId == 100
  {
    s := new Session(100);
    var r := s.Start(100);
    r := s.EnableTestMode(100);
    r := s.ChooseMode(Simple);
    r := s.RequestBetAmount();
    r := s.EnterBetAmount(100, Some(0.5));
    assert s.status == Waiting && !s.freePlay && s.stake == 0.5 && s.Capacity() == 2;
    r := s.Join(1, true);
    r := s.Join(2, true);
  }

  /**
   * One player backs Player and the other Banker. The player is dealt 4
   * and 5 (a natural 9), the banker 10 and K (0): nobody draws, Player
   * wins, and its backer is paid 0.5 times 2.
   */
  method SimplePaidRound() returns (round: Option<Round>)
    ensures round == Some(BaccaratRound([4, 5], [10, 13], Player, map[1 := 1.0]))
  {
    var s := PaidSimpleGameAtBetting();
    var deal := Deal(4, 5, 10, 13, 7, 7);
    var r;
    r, round := s.PlaceBet(1, Back(Player), deal, 1, {1, 2});
    assert s.bets == map[1 := Wager(Back(Player), 0.5)];
    r, round := s.PlaceBet(2, Back(Banker), deal, 1, {1, 2});
    var bets := map[1 := Wager(Back(Player), 0.5), 2 := Wager(Back(Banker), 0.5)];
    assert map[1 := Wager(Back(Player), 0.5)][2 := Wager(Back(Banker), 0.5)] == bets;
    NaturalNineRound(bets);
  }

  /** The round of the paid simple game above, computed from its definition. */
  lemma NaturalNineRound(bets: map<int, Wager>)
    requires bets == map[1 := Wager(Back(Player), 0.5), 2 := Wager(Back(Banker), 0.5)]
    ensures BaccaratRoundOf(bets, Deal(4, 5, 10, 13, 7, 7), false, {1, 2}) ==
      BaccaratRound([4, 5], [10, 13], Player, map[1 := 1.0])
  {
    assert HandTotal([4, 5]) == 9 && HandTotal([10, 13]) == 0;
    assert ThirdCardRule([4, 5], [10, 13], 7, 7) == Draw([4, 5], [10, 13], false, false);
    assert DetermineWinner([4, 5], [10, 13]) == Player;
    assert SimpleDue(bets, Player) == map[1 := 1.0];
    assert Issued(map[1 := 1.0], {1, 2}) == map[1 := 1.0];
  }
}
