/**
 * The per-chat game session and the handlers that move it through its
 * phases: waiting for players (with a sub-step in which the creator types
 * the bet amount), betting, card selection (interactive mode only), and
 * the settlement that replaces the finished game by a fresh one.
 *
 * Each handler answers with a Reply; a rejected request leaves the session
 * as it was, except a card pick outside the card-selection phase, which
 * deletes the game.
 */
module Sessions {
  import opened Options
  import opened Cards
  import opened Tableau
  import opened Pvp
  import opened Settlement

  datatype Status = Waiting | SettingBet | Betting | CardSelection | Playing

  datatype Mode = Simple | Interactive

  /** Players that fill a game: 2 in test mode, otherwise 4 in interactive and 8 in simple mode. */
  function MaxPlayers(testMode: bool, mode: Mode): (n: nat)
    ensures n == 2 <==> testMode
    ensures !testMode ==> (n == 4 <==> mode.Interactive?) && (n == 8 <==> mode.Simple?)
  {
    if testMode then 2 else if mode.Interactive? then 4 else 8
  }

  /** The answer of a handler; every value but Done means nothing was applied. */
  datatype Reply =
    | Done
    | NoGame          // no game record for the chat
    | AlreadyRunning  // start requested while a round is under way
    | AlreadyOpen     // start requested while a game is waiting for players
    | NotCreator      // cancel requested by someone other than the game's creator
    | NotOwner        // reset requested by someone other than the bot owner
    | AlreadyStarted  // bet setup requested outside the waiting phase
    | Ignored         // a message or button the handler silently ignores
    | InvalidAmount   // the typed bet amount is not a number
    | AlreadyJoined
    | NotAccepting    // join outside the waiting phase
    | Full
    | WalletRequired  // join of a paid game without a wallet
    | NotBetting
    | AlreadyBet
    | NotSelecting    // card pick outside the card-selection phase (the game is deleted)
    | AlreadyChose
    | InvalidCard

  /** The six cards the dealer would hand out: two per hand, then each hand's possible third card. */
  datatype Deal = Deal(player1: int, player2: int, banker1: int, banker2: int, playerThird: int, bankerThird: int)

  /** Every card of the deal is a rank 1..13, as the random dealer yields. */
  predicate ValidDeal(d: Deal)
  {
    && 1 <= d.player1 <= 13 && 1 <= d.player2 <= 13
    && 1 <= d.banker1 <= 13 && 1 <= d.banker2 <= 13
    && 1 <= d.playerThird <= 13 && 1 <= d.bankerThird <= 13
  }

  /** What a settled round reports: the hands or picks, the result, and the payouts issued. */
  datatype Round =
    | BaccaratRound(playerHand: seq<int>, bankerHand: seq<int>, result: Side, paid: map<int, real>)
    | PvpRound(target: int, totals: map<int, int>, winners: set<int>, paid: map<int, real>)

  /**
   * A simple-mode round: deal two cards per hand, apply the third-card
   * rule, compare totals, and, unless it is free play, pay the bettors who
   * backed the result and have a wallet.
   */
  function BaccaratRoundOf(bets: map<int, Wager>, deal: Deal, freePlay: bool, wallets: set<int>): (r: Round)
    ensures r.BaccaratRound?
    ensures 2 <= |r.playerHand| <= 3 && r.playerHand[..2] == [deal.player1, deal.player2]
    ensures 2 <= |r.bankerHand| <= 3 && r.bankerHand[..2] == [deal.banker1, deal.banker2]
  {
    var d := ThirdCardRule([deal.player1, deal.player2], [deal.banker1, deal.banker2], deal.playerThird, deal.bankerThird);
    var result := DetermineWinner(d.player, d.banker);
    BaccaratRound(d.player, d.banker, result,
      if freePlay then map[] else Issued(SimpleDue(bets, result), wallets))
  }

  /**
   * An interactive round: score the picks against the target and, unless
   * it is free play, pay each winner with a wallet an equal share of the
   * bettors' pool less the fee.
   */
  function PvpRoundOf(choices: map<int, int>, target: int, stake: real, bettors: nat, freePlay: bool, wallets: set<int>): (r: Round)
    ensures r.PvpRound? && r.target == target
    ensures r.totals.Keys == choices.Keys && r.winners <= choices.Keys && r.paid.Keys <= r.winners
  {
    var r := DeterminePvpWinner(choices, target);
    PvpRound(target, r.totals, r.winners,
      if freePlay then map[] else Issued(PvpDue(r.winners, stake, bettors), wallets))
  }

  /**
   * A simple round: only bettors who backed the result and have a wallet
   * are paid, each the bet times the multiplier of the result, and free
   * play pays nobody.
   */
  lemma BaccaratRoundPaysBackers(bets: map<int, Wager>, deal: Deal, freePlay: bool, wallets: set<int>)
    ensures var r := BaccaratRoundOf(bets, deal, freePlay, wallets);
      && (freePlay ==> r.paid == map[])
      && (!freePlay ==> forall u :: u in r.paid <==> u in bets && u in wallets && bets[u].choice == Back(r.result))
      && (forall u :: u in r.paid ==> r.paid[u] == bets[u].amount * Multiplier(r.result))
  {
    ThirdCardRuleOnTwoCardHands([deal.player1, deal.player2], [deal.banker1, deal.banker2], deal.playerThird, deal.bankerThird);
  }

  /**
   * An interactive round: nobody wins exactly when every pick totals 0;
   * nobody is paid in free play or without a winner, and
   * with a stake that is not negative the withdrawals issued never total more than
   * the pool less its fee.
   */
  lemma PvpRoundPaysWithinPool(choices: map<int, int>, target: int, stake: real, bettors: nat, freePlay: bool, wallets: set<int>)
    requires stake >= 0.0
    ensures var r := PvpRoundOf(choices, target, stake, bettors, freePlay, wallets);
      && (r.winners == {} <==> AllZero(choices))
      && (freePlay || r.winners == {} ==> r.paid == map[])
      && Total(r.paid) <= 0.95 * stake * bettors as real
  {
    PvpWinnersAreClosest(choices, target);
    var w := DeterminePvpWinner(choices, target);
    var paid := if freePlay then map[] else Issued(PvpDue(w.winners, stake, bettors), wallets);
    assert PvpRoundOf(choices, target, stake, bettors, freePlay, wallets) == PvpRound(target, w.totals, w.winners, paid);
    if !freePlay && w.winners != {} {
      PvpPaidWithinPrizePool(w.winners, stake, bettors, wallets);
    } else {
      assert paid == map[];
      assert 0.0 <= stake * bettors as real;
    }
  }

  predicate NoDuplicates(s: seq<int>)
  {
    forall i, j :: 0 <= i < j < |s| ==> s[i] != s[j]
  }

  /** The fields of a session, as one value, to say what a handler leaves alone. */
  datatype State = State(
    live: bool,
    creatorId: int,
    status: Status,
    mode: Mode,
    testMode: bool,
    freePlay: bool,
    stake: real,
    players: seq<int>,
    bets: map<int, Wager>,
    cardChoices: map<int, int>,
    targetNumber: int)

  /**
   * The game record a new round starts from: waiting, interactive, not in
   * test mode, free play (bet amount "0"), nobody joined.
   */
  function FreshState(creator: int): State
  {
    State(true, creator, Waiting, Interactive, false, true, 0.0, [], map[], map[], 0)
  }

  class Session {
    /** The bot owner, who alone may reset games and switch on test mode. */
    const ownerId: int

    /** Whether a game record exists for the chat; deleting the game clears it. */
    var live: bool
    var creatorId: int
    var status: Status
    var mode: Mode
    var testMode: bool
    /** The bet amount is the literal "0": nobody stakes and nothing is paid. */
    var freePlay: bool
    /** The bet amount as a number (0 in free play). */
    var stake: real
    var players: seq<int>
    var bets: map<int, Wager>
    var cardChoices: map<int, int>
    var targetNumber: int

    ghost function Snapshot(): State
      reads this
    {
      State(live, creatorId, status, mode, testMode, freePlay, stake, players, bets, cardChoices, targetNumber)
    }

    /**
     * The session's invariant: nobody is listed twice, every pick is a rank
     * 1..13, and a target 1..9 is set during card selection.
     */
    ghost predicate Valid()
      reads this
    {
      && NoDuplicates(players)
      && (forall u :: u in cardChoices ==> 1 <= cardChoices[u] <= 13)
      && (status == CardSelection ==> 1 <= targetNumber <= 9)
    }

    function Capacity(): nat
      reads this
    {
      MaxPlayers(testMode, mode)
    }

    constructor (ownerId: int)
      ensures this.ownerId == ownerId && !live && Valid()
    {
      this.ownerId := ownerId;
      live := false;
      creatorId := ownerId;
      status := Waiting;
      mode := Interactive;
      testMode := false;
      freePlay := true;
      stake := 0.0;
      players := [];
      bets := map[];
      cardChoices := map[];
      targetNumber := 0;
    }

    /** Replaces the game by a fresh one created by `creator`. */
    method Renew(creator: int)
      modifies this
      ensures Valid() && Snapshot() == FreshState(creator)
    {
      live := true;
      creatorId := creator;
      status := Waiting;
      mode := Interactive;
      testMode := false;
      freePlay := true;
      stake := 0.0;
      players := [];
      bets := map[];
      cardChoices := map[];
      targetNumber := 0;
    }

    /**
     * Opens a game in the group: refused while one is under way or waiting
     * for players; otherwise a fresh game created by `user`.
     */
    method Start(user: int) returns (reply: Reply)
      requires Valid()
      modifies this
      ensures Valid()
      ensures reply == (if !old(live) then Done else if old(status) != Waiting then AlreadyRunning else AlreadyOpen)
      ensures reply != Done ==> unchanged(this)
      ensures reply == Done ==> Snapshot() == FreshState(user)
    {
      if live && status != Waiting {
        return AlreadyRunning;
      }
      if live {
        return AlreadyOpen;
      }
      Renew(user);
      reply := Done;
    }

    /** Picks the game mode; the bot applies it in any phase. */
    method ChooseMode(m: Mode) returns (reply: Reply)
      requires Valid()
      modifies this
      ensures Valid()
      ensures reply == (if old(live) then Done else NoGame)
      ensures reply != Done ==> unchanged(this)
      ensures reply == Done ==> Snapshot() == old(Snapshot()).(mode := m)
    {
      if !live {
        return NoGame;
      }
      mode := m;
      reply := Done;
    }

    /** Test mode, for the bot owner only: capacity 2, and the game is put back to waiting in any phase. */
    method EnableTestMode(user: int) returns (reply: Reply)
      requires Valid()
      modifies this
      ensures Valid()
      ensures reply == (if !old(live) then NoGame else if user != ownerId then Ignored else Done)
      ensures reply != Done ==> unchanged(this)
      ensures reply == Done ==> Snapshot() == old(Snapshot()).(testMode := true, status := Waiting)
    {
      if !live {
        return NoGame;
      }
      if user != ownerId {
        return Ignored;
      }
      testMode := true;
      status := Waiting;
      reply := Done;
    }

    /** The "start game" button: it only offers the mode menu, and only while the game is waiting. */
    method OpenModeMenu() returns (reply: Reply)
      requires Valid()
      ensures reply == (if !live then NoGame else if status != Waiting then AlreadyStarted else Done)
    {
      if !live {
        return NoGame;
      }
      if status != Waiting {
        return AlreadyStarted;
      }
      reply := Done;
    }

    /** The "set bet" button: from waiting, the game waits for the creator to type an amount. */
    method RequestBetAmount() returns (reply: Reply)
      requires Valid()
      modifies this
      ensures Valid()
      ensures reply == (if !old(live) then NoGame else if old(status) != Waiting then AlreadyStarted else Done)
      ensures reply != Done ==> unchanged(this)
      ensures reply == Done ==> Snapshot() == old(Snapshot()).(status := SettingBet)
    {
      if !live {
        return NoGame;
      }
      if status != Waiting {
        return AlreadyStarted;
      }
      status := SettingBet;
      reply := Done;
    }

    /**
     * A text message in the chat. Only the creator's message while the game
     * waits for an amount counts; `amount` is the message read as a number
     * (None when it does not parse). A number, any number, makes the game a
     * paid one with that stake and puts it back to waiting.
     */
    method EnterBetAmount(user: int, amount: Option<real>) returns (reply: Reply)
      requires Valid()
      modifies this
      ensures Valid()
      ensures reply ==
        if !old(live) || old(status) != SettingBet || user != old(creatorId) then Ignored
        else if amount.None? then InvalidAmount
        else Done
      ensures reply != Done ==> unchanged(this)
      ensures reply == Done ==>
        Snapshot() == old(Snapshot()).(stake := amount.value, freePlay := false, status := Waiting)
    {
      if !live || status != SettingBet || user != creatorId {
        return Ignored;
      }
      if amount.None? {
        return InvalidAmount;
      }
      stake := amount.value;
      freePlay := false;
      status := Waiting;
      reply := Done;
    }

    /** The "free play" button: from waiting, the bet amount becomes "0". */
    method FreePlay() returns (reply: Reply)
      requires Valid()
      modifies this
      ensures Valid()
      ensures reply == (if !old(live) then NoGame else if old(status) != Waiting then AlreadyStarted else Done)
      ensures reply != Done ==> unchanged(this)
      ensures reply == Done ==> Snapshot() == old(Snapshot()).(freePlay := true, stake := 0.0)
    {
      if !live {
        return NoGame;
      }
      if status != Waiting {
        return AlreadyStarted;
      }
      freePlay := true;
      stake := 0.0;
      reply := Done;
    }

    /**
     * The "join" button. Refused, in this order, to a user already listed,
     * outside the waiting phase, when the game is full, and to a user
     * without a wallet in a paid game. Otherwise the user is appended, and a
     * game that reaches its capacity moves to betting. The player list stays
     * duplicate-free, and within capacity when it was.
     */
    method Join(user: int, hasWallet: bool) returns (reply: Reply)
      requires Valid()
      modifies this
      ensures Valid()
      ensures reply ==
        if !old(live) then NoGame
        else if user in old(players) then AlreadyJoined
        else if old(status) != Waiting then NotAccepting
        else if |old(players)| >= old(Capacity()) then Full
        else if !hasWallet && !old(freePlay) then WalletRequired
        else Done
      ensures reply != Done ==> unchanged(this)
      ensures reply == Done ==>
        Snapshot() == old(Snapshot()).(
          players := old(players) + [user],
          status := if |old(players)| + 1 == old(Capacity()) then Betting else Waiting)
      ensures |old(players)| <= old(Capacity()) ==> |players| <= Capacity()
    {
      if !live {
        return NoGame;
      }
      if user in players {
        return AlreadyJoined;
      }
      if status != Waiting {
        return NotAccepting;
      }
      if |players| >= Capacity() {
        return Full;
      }
      if !hasWallet && !freePlay {
        return WalletRequired;
      }
      players := players + [user];
      if |players| == Capacity() {
        status := Betting;
      }
      reply := Done;
    }

    /**
     * A bet button. Refused outside the betting phase and to a user who has
     * bet already; the user need not be a listed player. The bet records the
     * choice and the current bet amount. Once there are as many bets as
     * players, interactive mode moves to card selection with the drawn
     * `target`, and simple mode deals `deal`, settles the round and starts
     * a fresh game created by the bot owner.
     */
    method PlaceBet(user: int, choice: Choice, deal: Deal, target: int, wallets: set<int>)
      returns (reply: Reply, round: Option<Round>)
      requires Valid()
      requires ValidDeal(deal) && 1 <= target <= 9
      modifies this
      ensures Valid()
      ensures reply ==
        if !old(live) then NoGame
        else if old(status) != Betting then NotBetting
        else if user in old(bets) then AlreadyBet
        else Done
      ensures reply != Done ==> unchanged(this) && round == None
      ensures reply == Done ==>
        var bets' := old(bets)[user := Wager(choice, old(stake))];
        if |bets'| != |old(players)| then
          round == None && Snapshot() == old(Snapshot()).(bets := bets')
        else if old(mode) == Interactive then
          round == None &&
          Snapshot() == old(Snapshot()).(bets := bets', status := CardSelection, targetNumber := target)
        else
          round == Some(BaccaratRoundOf(bets', deal, old(freePlay), wallets)) &&
          Snapshot() == FreshState(ownerId)
    {
      round := None;
      if !live {
        return NoGame, None;
      }
      if status != Betting {
        return NotBetting, None;
      }
      if user in bets {
        return AlreadyBet, None;
      }
      bets := bets[user := Wager(choice, stake)];
      reply := Done;
      if |bets| == |players| {
        if mode == Interactive {
          status := CardSelection;
          targetNumber := target;
        } else {
          status := Playing;
          var playerHand, bankerHand, _, _ := BaccaratThirdCard(
            [deal.player1, deal.player2], [deal.banker1, deal.banker2], deal.playerThird, deal.bankerThird);
          var result := DetermineWinner(playerHand, bankerHand);
          var paid: map<int, real> := map[];
          if !freePlay {
            paid := IssuePayouts(SimpleDue(bets, result), wallets);
          }
          round := Some(BaccaratRound(playerHand, bankerHand, result, paid));
          Renew(ownerId);
        }
      }
    }

    /**
     * A card button. Outside card selection the game is deleted. Refused to
     * a user who has picked already, then for a symbol outside A, 2..10, J,
     * Q, K; otherwise the rank is recorded. Once every listed player has
     * picked, the game moves to playing. In interactive mode the round is
     * then settled against the target and a fresh game created by the bot
     * owner takes its place. If the mode was switched to simple meanwhile,
     * the results step fails on the missing hands and the game is left in
     * the playing phase, unsettled.
     */
    method ChooseCard(user: int, symbol: string, wallets: set<int>) returns (reply: Reply, round: Option<Round>)
      requires Valid()
      modifies this
      ensures Valid()
      ensures reply ==
        if !old(live) then NoGame
        else if old(status) != CardSelection then NotSelecting
        else if user in old(cardChoices) then AlreadyChose
        else if CardFromSymbol(symbol).None? then InvalidCard
        else Done
      ensures reply == NotSelecting ==> round == None && Snapshot() == old(Snapshot()).(live := false)
      ensures reply != Done && reply != NotSelecting ==> unchanged(this) && round == None
      ensures reply == Done ==>
        var choices' := old(cardChoices)[user := CardFromSymbol(symbol).value];
        if !(forall p :: p in old(players) ==> p in choices') then
          round == None && Snapshot() == old(Snapshot()).(cardChoices := choices')
        else if old(mode) == Interactive then
          round == Some(PvpRoundOf(choices', old(targetNumber), old(stake), |old(bets)|, old(freePlay), wallets)) &&
          Snapshot() == FreshState(ownerId)
        else
          round == None && Snapshot() == old(Snapshot()).(cardChoices := choices', status := Playing)
    {
      round := None;
      if !live {
        return NoGame, None;
      }
      if status != CardSelection {
        live := false;
        return NotSelecting, None;
      }
      if user in cardChoices {
        return AlreadyChose, None;
      }
      var rank := CardFromSymbol(symbol);
      if rank.None? {
        return InvalidCard, None;
      }
      cardChoices := cardChoices[user := rank.value];
      reply := Done;
      if forall p :: p in players ==> p in cardChoices {
        status := Playing;
        if mode == Simple {
          // The results step renders the simple-mode hands, which a card pick
          // does not supply, and fails: the game stays in the playing phase.
          return;
        }
        var r := DeterminePvpWinner(cardChoices, targetNumber);
        var paid: map<int, real> := map[];
        if !freePlay {
          paid := IssuePayouts(PvpDue(r.winners, stake, |bets|), wallets);
        }
        round := Some(PvpRound(targetNumber, r.totals, r.winners, paid));
        Renew(ownerId);
      }
    }

    /** The cancel command: only the game's creator may cancel, and the game is deleted. */
    method Cancel(user: int) returns (reply: Reply)
      requires Valid()
      modifies this
      ensures Valid()
      ensures reply == (if !old(live) then NoGame else if user != old(creatorId) then NotCreator else Done)
      ensures reply != Done ==> unchanged(this)
      ensures reply == Done ==> Snapshot() == old(Snapshot()).(live := false)
    {
      if !live {
        return NoGame;
      }
      if user != creatorId {
        return NotCreator;
      }
      live := false;
      reply := Done;
    }

    /** The reset command: only the bot owner may reset, and whatever game exists is deleted. */
    method Reset(user: int) returns (reply: Reply)
      requires Valid()
      modifies this
      ensures Valid()
      ensures reply == (if user != ownerId then NotOwner else Done)
      ensures reply != Done ==> unchanged(this)
      ensures reply == Done ==> Snapshot() == old(Snapshot()).(live := false)
    {
      if user != ownerId {
        return NotOwner;
      }
      live := false;
      reply := Done;
    }

    /**
     * The card-selection timeout: it deletes the game only if the game is
     * still in card selection, and is a no-op otherwise, so a round settled
     * in time is never cancelled afterwards.
     */
    method OnSelectionTimeout() returns (reply: Reply)
      requires Valid()
      modifies this
      ensures Valid()
      ensures reply == (if old(live) && old(status) == CardSelection then Done else Ignored)
      ensures reply != Done ==> unchanged(this)
      ensures reply == Done ==> Snapshot() == old(Snapshot()).(live := false)
    {
      if !live || status != CardSelection {
        return Ignored;
      }
      live := false;
      reply := Done;
    }
  }
}
