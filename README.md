# Bakuchi-ba baccarat bot, modelled in Dafny

The bot runs baccarat games in a Telegram group. A game has one of two modes:

- **Simple.** Up to 8 players back Player, Banker or Tie. The bot deals punto-banco hands with the standard third-card tableau. Winning bets pay 2×, 1.95× or 9×.
- **Interactive.** Up to 4 players confirm a bet and then each pick one card. The players whose card total is closest to a secret target 1..9 share the pool, less a 5% fee.

In test mode, two players fill either kind of game. A game can be free play, meaning the bet amount is "0", or paid. A paid game needs a wallet to join. At settlement the bot issues one withdrawal from the house contract for each winner who has a wallet; what that transaction does on chain is under "## Left out".

This project models the parts of the bot that decide things:

- the card and hand engine;
- the third-card rule, both as a function and as the step-by-step procedure;
- the interactive scoring;
- the settlement arithmetic, and the loop that issues payouts to recipients with a wallet;
- the per-chat session, as a class whose handlers check and update its fields in the same order as the bot.

Modules, one per file:

- `Options` (`options.dfy`): the option type.
- `Sets` (`sets.dfy`): two helper facts: a non-empty set has an element, and a non-empty map has a key.
- `Cards` (`cards.dfy`): card values, hand totals, the winner, and card symbols.
- `Tableau` (`tableau.dfy`): the third-card rule.
- `Pvp` (`pvp.dfy`): interactive scoring.
- `Settlement` (`settlement.dfy`): amounts owed and payouts issued.
- `Sessions` (`session.dfy`): the `Session` class and the round results.
- `Support` (`support.dfy`): the check on the support handle.
- `Walkthrough` (`walkthrough.dfy`): complete rounds driven through the handlers, and a simple-mode game left stranded.

Inputs the bot takes from outside are parameters of the model:

- the random cards and the random target;
- whether a user has a wallet;
- the bet amount text, already read as a number.

Amounts are exact `real`s in ether.

Some behaviours of the code are easy to miss, or differ from what a reader of its messages and buttons would expect. The model follows the code in each of them:

- **Bets and card picks from non-players.** They are accepted, because neither handler checks the player list (`main.py:727-738`, `main.py:810-835`).
- **No refund in interactive mode.** A round without a winner pays nothing. `process_pvp_payouts` returns early at `main.py:199-200`, so the 95% refund loop at `main.py:232-256` never runs (see `Settlement.NoWinnerNoPayout`).
- **Capacity is not an invariant.** Two handlers can leave more players than the capacity now allows:
  - the mode button is honoured in any phase (`main.py:891-894`);
  - test mode puts any game back to waiting (`main.py:953-968`).

  `Join` keeps the bound only when it held already.
- **The timeout job is removed on every card pick**, not only on the last one (`main.py:844-849`).
- **Cancel, reset, timeout and a stale card pick do not replace the game.** They delete it, and a new one needs `/start`. Only settlement replaces the game, with one created by the bot owner (`main.py:1229-1245`).
- **A simple-mode game whose last card pick settles it is stranded.** When every player has picked a card, the handler writes status "playing" (`main.py:1080`) and then takes the simple-mode branch without any hands: `main.py:1083` fails on `None`. A game reaches this only when its mode was switched to simple during card selection. No round is settled, and the game stays in "playing", so `/start` refuses a new one. The game ends only when its creator cancels it, the bot owner resets it, or somebody presses a card button, which deletes a game that is not in card selection (`main.py:810-820`) (see `Walkthrough.ModeSwitchDuringSelectionStrandsGame`).
- **Typing "0" as the amount makes a paid game with stake 0.** The text is stored as `str(float(text))`, which is "0.0", not "0" (`main.py:1262`).

## Model

| member | source | states |
|---|---|---|
| Cards.CardValue | main.py:132-137 | An Ace counts 1, ranks 10 and up count 0, and other ranks count themselves, so every rank of the deck is worth 0..9 |
| Cards.HandTotal | main.py:139-141 | A hand total lies in 0..9 and is congruent to the sum of the card values modulo 10, as Python's floor `%` makes it |
| Cards.HandTotalAppend | main.py:139-141 | Adding a card to a hand adds its value to the total, modulo 10 |
| Cards.AddModTen | main.py:140 | Helper: reducing the first addend modulo 10 leaves the sum modulo 10 unchanged |
| Cards.PointSum | main.py:140 | The sum of the card values of a hand of deck cards lies between 0 and 9 per card |
| Cards.PointSumAppend | main.py:140 | The sum of card values grows by the new card's value when a card is appended |
| Cards.DetermineWinner | main.py:175-183 | The result is Player exactly when the player's total is higher, Banker exactly when it is lower, and Tie exactly when the totals are equal |
| Cards.CardToString | main.py:262-271 | Every rank 1..13 renders as its symbol among A, 2..10, J, Q, K |
| Cards.CardFromSymbol | main.py:827-834 | A symbol is accepted exactly when it is one of the thirteen, and its rank r is then 1..13 and names that symbol |
| Cards.DigitSymbolValues | main.py:834 | The pip symbols "2".."10" read back through `int` as ranks 2..10 |
| Cards.SymbolOfRankRoundTrip | main.py:262-271 | Reading back the rendering of a rank 1..13 gives that rank |
| Cards.RankOfSymbolRoundTrip | main.py:833-834 | Rendering the rank read from a valid symbol gives that symbol |
| Cards.SymbolsDistinct | main.py:827 | The thirteen symbols are pairwise distinct |
| Tableau.BankerDraws | main.py:155-166 | After the player draws, the banker always draws on 0..2, never on 7 or more, and never on 3 or more when the player's third card is an 8 |
| Tableau.BankerDrawsIsPrintedTableau | main.py:155-166 | After the player draws, the banker's rule for every banker total 0..7 and player third-card value 0..9 is the printed punto-banco table: 0..2 always; 3 unless an 8; 4 on 2..7; 5 on 4..7; 6 on 6..7; 7 never |
| Tableau.ThirdCardRule | main.py:143-173 | Each hand is the old hand plus at most one new card, present exactly when that hand's flag is set. A natural sets neither flag, and otherwise the player draws exactly on a total of 0..5 |
| Tableau.ThirdCardRuleOnTwoCardHands | main.py:147-173 | From two-card hands: a natural (a total of 8 or 9 on either side) changes nothing and sets no flags. Otherwise the player gains one card exactly on 0..5, and the banker gains at most one card, by the table when the player drew and on 0..5 when the player stood. Each flag is true exactly when that hand has three cards |
| Tableau.BaccaratThirdCard | main.py:143-173 | The step-by-step procedure returns the hands and flags of the third-card rule |
| Pvp.LeastExists | main.py:194 | Helper: a finite non-empty set of distances has a least element |
| Pvp.SetMin | main.py:194 | `min` returns a member of the set that is no larger than any member |
| Pvp.Totals | main.py:187-190 | There is one total per chooser, equal to the picked card's value modulo 10 and lying in 0..9 |
| Pvp.AtLeast | main.py:193-195 | The choosers kept at the minimal distance are among the choosers |
| Pvp.AtLeastIsMinimal | main.py:194-195 | The choosers kept at the minimal distance are never none, and a chooser is kept exactly when no chooser has a smaller distance |
| Pvp.NoWinnerIffAllZero | main.py:191-192 | There is no winner exactly when every pick totals 0 or nobody picked |
| Pvp.DeterminePvpWinner | main.py:186-196 | There is one total per chooser, equal to the picked card's value and lying in 0..9, and every winner is a chooser |
| Pvp.PvpWinnersAreClosest | main.py:191-196 | There is no winner exactly when every pick totals 0 or nobody picked. Otherwise a chooser wins exactly when no other chooser is closer to the target, so tied choosers all win |
| Pvp.ClosestPickWins | main.py:700 | With target 7, picks 8 and 5: only the first player wins |
| Pvp.AllZeroValueCardsNoWinner | main.py:191-192 | Picks that are all zero-value cards (10, J, Q, K) produce no winner, whatever the target |
| Settlement.Multiplier | main.py:1116-1121 | The multiplier of a side is one plus its advertised odds |
| Settlement.SimpleDue | main.py:1104-1121 | Exactly the bettors whose choice is the result are owed, each the bet's amount times the multiplier of the result (Banker 1.95, Player 2, Tie 9) |
| Settlement.SimplePayoutMatchesAdvertisedOdds | main.py:1027-1029 | A winning payout returns the stake plus the stake at the advertised odds: 1:1, 1:1 less 5% commission, 8:1 |
| Settlement.PvpShare | main.py:201-204 | The winners' shares together make 95% of stake × bettors, and a stake that is not negative gives a share that is not negative |
| Settlement.PvpDue | main.py:198-204 | Exactly the winners are owed, each an equal share of the bettors' pool less 5%; no winner, nobody owed |
| Settlement.TotalOfEqualAmounts | main.py:204 | Equal shares sum to their number times the share |
| Settlement.PvpSharesSumToPrizePool | main.py:201-204 | The interactive shares add up to 95% of stake × bettors whenever somebody wins |
| Settlement.NoWinnerNoPayout | main.py:199-200 | Without a winner nothing is owed; the refund branch after the early return is unreachable |
| Settlement.PvpShareExamples | main.py:201-204 | Four bettors at 0.25: one winner gets 0.95, two winners 0.475 each |
| Settlement.Issued | main.py:207-209 | A withdrawal is issued exactly for each recipient owed something who has a wallet, for the amount owed |
| Settlement.IssuePayouts | main.py:207-209 | The payout loop issues a withdrawal exactly for each recipient owed something who has a wallet, for the amount owed, and skips the rest |
| Settlement.PvpPaidWithinPrizePool | main.py:201-209 | With a stake that is not negative, the interactive payouts issued never exceed 95% of the pool, and equal it when every winner has a wallet |
| Settlement.PaidAreShares | main.py:207-209 | The interactive payouts issued are exactly one share to each winner with a wallet, and all the shares when every winner has one |
| Settlement.ScaleMonotone | main.py:204 | Helper: fewer payouts of the same share never add up to more |
| Settlement.EqualSharesWithinPrize | main.py:204-209 | Helper: equal shares paid to some of the winners add up to at most the winners' total |
| Settlement.SubsetCard | main.py:207-209 | Helper: paying a subset of the winners makes at most as many payouts as there are winners |
| Sessions.MaxPlayers | main.py:867 | A game fills at 2 players exactly in test mode; otherwise at 4 in interactive and at 8 in simple mode |
| Sessions.BaccaratRoundOf | main.py:1103-1121 | A simple round is a punto-banco round whose hands start with the dealt two cards each and end with two or three cards |
| Sessions.PvpRoundOf | main.py:1139-1169 | An interactive round keeps the target, has one total per chooser and only choosers as winners, and pays only winners |
| Sessions.BaccaratRoundPaysBackers | main.py:1103-1121 | In a simple round only bettors who backed the result and have a wallet are paid, each the bet times the result's multiplier. Free play pays nobody |
| Sessions.PvpRoundPaysWithinPool | main.py:1139-1169 | In an interactive round nobody wins exactly when every pick totals 0. Nobody is paid without a winner or in free play. No more than the pool less its fee is paid out |
| Sessions.Session.constructor | main.py:291-292 | A chat starts without a game record |
| Sessions.Session.Renew | main.py:1229-1245 | After settlement the game is fresh: waiting, interactive, no test mode, free play, created by the bot owner, nobody joined |
| Sessions.Session.Start | main.py:482-547 | `/start` is refused while a round runs and while a game waits for players. Otherwise it creates a fresh game owned by the caller |
| Sessions.Session.ChooseMode | main.py:891-894 | The mode button sets the mode in any phase and changes nothing else |
| Sessions.Session.EnableTestMode | main.py:953-968 | Only the bot owner can switch on test mode, which also puts the game back to waiting |
| Sessions.Session.OpenModeMenu | main.py:869-873 | The start-game button is refused outside the waiting phase and changes nothing |
| Sessions.Session.RequestBetAmount | main.py:912-918 | The set-bet button works only while waiting, and moves to waiting for the amount |
| Sessions.Session.EnterBetAmount | main.py:1256-1264 | Only the creator's message while an amount is awaited counts. A non-number is refused with nothing changed. A number becomes the stake of a paid game and the game waits again |
| Sessions.Session.FreePlay | main.py:920-924 | The free-play button works only while waiting, and makes the game free |
| Sessions.Session.Join | main.py:970-1048 | Join is refused with nothing changed, in this order: already joined, not waiting, full, paid game without a wallet. On success it appends exactly that user, and reaching capacity moves to betting. The player list stays duplicate-free, and within capacity when it was |
| Sessions.Session.PlaceBet | main.py:722-786 | A bet is refused outside betting, or on a second bet by the same user. Otherwise it records the choice and the bet amount. The last bet moves an interactive game to card selection with its target, or deals, settles and replaces a simple game |
| Sessions.Session.ChooseCard | main.py:805-856 | A card pick outside card selection deletes the game. A repeat pick or an unknown symbol is refused with nothing changed. Otherwise the rank is recorded. The last pick of an interactive game settles the round and replaces the game; the last pick of a simple-mode game moves it to playing and settles nothing, as the bot fails there (`main.py:1080-1083`) |
| Sessions.Session.Cancel | main.py:598-610 | Only the game's creator can cancel, and cancelling deletes the game |
| Sessions.Session.Reset | main.py:616-625 | Only the bot owner can reset, and resetting deletes the game |
| Sessions.Session.OnSelectionTimeout | main.py:634-644 | The timeout deletes the game only while the game is in card selection, and otherwise changes nothing |
| Support.HandleBody | main.py:467 | The handle is "@", then the body, then at most one line feed |
| Support.ValidHandle | main.py:467 | An accepted handle starts with "@" and has at least six characters |
| Support.ValidHandleShape | main.py:467 | A handle is accepted exactly when it is "@" and a body of 5 to 32 letters, digits or underscores, optionally followed by one line feed (Python's `$`) |
| Support.DefaultHandleValid | main.py:444-445 | The default support handle passes the check, with or without a trailing line feed |
| Support.MalformedHandlesRefused | main.py:467-471 | A four-character body, a handle without "@", and a handle with a hyphen are refused |
| Walkthrough.FreeTestGameAtCardSelection | main.py:722-751 | The owner's free test game fills with two players, and their two confirmations move it to card selection with the drawn target |
| Walkthrough.InteractiveFreeRound | main.py:700 | A free two-player test game played through the handlers: picks 8 and 5 against target 7, the first player alone wins, and nothing is paid |
| Walkthrough.EightBeatsFive | main.py:700 | The free round with picks 8 and 5 against target 7, computed from its definition: the first player alone wins, and nothing is paid |
| Walkthrough.ModeSwitchDuringSelectionStrandsGame | main.py:1078-1083 | A test game switched to simple mode during card selection: the last pick settles nothing and leaves the game playing, and `/start` is then refused |
| Walkthrough.PaidSimpleGameAtBetting | main.py:912-1048 | The owner's paid simple test game at 0.5 fills with two players and moves to betting |
| Walkthrough.SimplePaidRound | main.py:1103-1121 | With the player dealt a natural 9 against the banker's 0, Player wins and its backer alone is paid 0.5 × 2 = 1.0 |
| Walkthrough.NaturalNineRound | main.py:1103-1121 | The round of that deal, computed from its definition |

## Left out

- Telegram I/O is not modelled: messages, keyboards, pinning and deleting messages, private prompts, and the rules, tutorial, stats and tournament texts.
- The private-chat `/start` (wallet creation and display) is not modelled. It talks only to the wallet store.
- Firestore persistence and JSON encoding are not modelled. The session is in-memory state, and wallets are a set of user ids or a `hasWallet` flag.
- A wallet lookup that fails with an exception returns a truthy `(None, None)` (`main.py:330-332`). This is not modelled, since it is a storage failure.
- web3 is not modelled: transactions, nonces, gas, conversion to wei, receipts, and the deposits of `process_pending_bets`. These foreign calls sit outside the model, so a payout is the pair (user, amount) in the returned map. It records the withdrawal the bot issues for that winner.
- Issued and IssuePayouts: the bot's payout transaction names no recipient. It is built `from` the bot's own account, signed with the bot's key, and calls `withdraw(amount)` (`main.py:220-228`, `main.py:1128-1136`). The winner's wallet is only checked for existence; its address and account (`main.py:210-211`, `main.py:1112-1113`) are never used. So nothing in the code moves the amount to the winner. No stake is ever collected either: `add_pending_bet` (`main.py:348`) has no caller, so `process_pending_bets` (`main.py:1107`, `main.py:1168`) never finds a deposit. The model's `paid` map is the list of withdrawals issued, not money received by winners.
- IssuePayouts: it issues every payout owed to a recipient with a wallet. The bot also skips a payout when the house balance is too low (`main.py:215-218`, `main.py:1123-1126`), and that depends on chain state that is not modelled. A failing web3 call is not modelled either. In interactive mode one `try` covers the whole winner loop (`main.py:205-259`), so an exception skips every remaining winner, and the game is still replaced.
- PlaceBet: the last bet of a simple game settles and replaces it. In the bot, the simple-mode payout loop (`main.py:1108-1137`) has no `try`. A web3 exception there escapes `proceed_to_results`, so the game stays in "playing" and is never deleted or replaced. Chain failures are outside the model.
- Handlers are modelled as atomic: each one reads and updates the session in one step. The bot does not guarantee this. The Firestore client is synchronous (`main.py:122`), so one event loop switches handlers only at a Telegram call. Join is an example. It writes the new player list (`main.py:986`) and then awaits several sends before it writes the status "betting" (`main.py:1048`). A `/cancel` handled in between deletes the game. The later field merges of `update_game` (`main.py:297-304`, `main.py:1011`, `main.py:1048`) then create a partial record with status "betting" and no players or creator, which `/start` and `/cancel` cannot clear. With several worker processes behind the webhook (`main.py:1318-1323`), even a read and its write can interleave. Two last bets read before either is written each store a `player_bets` that lacks the other's bet. Then neither sees `len(player_bets) == len(players)` (`main.py:732-747`), and one bet is lost. Interleavings of handlers are not modelled.
- Join: every Telegram send is assumed to succeed, and no error handler is registered. Join writes the new player list (`main.py:985-986`), then sends the group message and the private prompt (`main.py:995-1046`), and only then writes the status "betting" (`main.py:1047-1048`). In free play a user who never opened a private chat with the bot can join. The bot cannot message that user, so the prompt raises. If that join fills the game, the game stays in "waiting" with a full list: no one else can join, and `/start` answers that a game is open. The model moves the game to `Betting`.
- PlaceBet and ChooseCard: before paying anyone, the results step sends each player a private message with no `try` (`main.py:1094-1102`, `main.py:1158-1166`). If one player has blocked the bot, nobody is paid and the game stays in "playing". The model settles the round and replaces the game.
- Renew: the fresh game is written inside a `try` around the group message (`main.py:1216-1248`). If that send fails, the chat is left with no game, while the model renews it.
- The order of payouts and notifications is not modelled. Bets, picks and payouts are maps and sets, while the bot walks them in dict insertion order. The order matters in two ways. The house balance is read again before each payout, and a payout is skipped when the balance is too low (`main.py:215-218`, `main.py:1123-1126`), so the order decides who is skipped when funds run short. In interactive mode one `try` covers the whole loop (`main.py:205-259`), so the order decides which winners an exception skips. Both are left out with `IssuePayouts` above; otherwise the order changes only the order of the transactions.
- Randomness is not modelled. The six cards a round can use (`Sessions.Deal`) and the target number are parameters, constrained to 1..13 and 1..9.
- The 30-second timer is not modelled: its scheduling, its removal, and its race with the last card pick. Only the status guard of the timeout handler is modelled, as `OnSelectionTimeout`.
- Bet-amount parsing is not modelled. `EnterBetAmount` receives the number Python's `float` would produce, or `None`. `nan` and `inf` have no `real` counterpart, and float rounding of the amounts and the `:.4f` display are not represented.
- Malformed callback data is not modelled: the parse errors at `main.py:710-720` and `main.py:792-803`, bet types other than player, banker, tie and none, and callbacks that name another chat. The model has one session, and `Choice` has only the four bet types the bot's buttons send.
- Multi-chat handling is not modelled: the group-chat check of `/start` and `/cancel`, and the `finished` status, which `/start` tests but the code never writes.
- The `player_count` and `game_state` fields are not modelled, because they only copy `|players|` and the dealt hands for display.
- The `/setsupport` command is modelled only as its handle check (`Support.ValidHandle`). Its owner and argument-count checks and the stored setting are left out.
- BaccaratThirdCard: it returns new hands, while the bot appends to the caller's lists in place. The caller rebinds both names to the results (`main.py:782`), so no aliasing is lost.
