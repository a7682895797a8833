/**
 * Settlement: what each winner of a round is owed, and which of those
 * payouts are issued. Amounts are exact reals in ether; the bot's floats
 * and the conversion to wei are not modelled.
 */
module Settlement {
  import opened Cards
  import opened Sets

  /** What a player submits in the bet phase: a side in simple mode, a bare confirmation in interactive mode. */
  datatype Choice = Back(side: Side) | Confirm

  /** A recorded bet: the choice and the game's bet amount when the bet was placed. */
  datatype Wager = Wager(choice: Choice, amount: real)

  /** Gross payout per unit staked on the side that won. */
  function Multiplier(side: Side): (m: real)
    ensures m == 1.0 + AdvertisedOdds(side)
  {
    match side
    case Banker => 1.95
    case Player => 2.0
    case Tie => 9.0
  }

  /**
   * Simple mode: every bettor whose choice is the result is owed the
   * amount of the bet times the multiplier of the side backed; everybody
   * else is owed nothing.
   */
  function SimpleDue(bets: map<int, Wager>, result: Side): (due: map<int, real>)
    ensures forall u :: u in due <==> u in bets && bets[u].choice == Back(result)
    ensures forall u :: u in due ==> due[u] == bets[u].amount * Multiplier(result)
  {
    map u | u in bets && bets[u].choice == Back(result) :: bets[u].amount * Multiplier(bets[u].choice.side)
  }

  /** The odds the bot advertises: Player 1:1, Banker 1:1 less 5% commission, Tie 8:1. */
  function AdvertisedOdds(side: Side): real
  {
    match side
    case Player => 1.0
    case Banker => 1.0 - 0.05
    case Tie => 8.0
  }

  /** A winning bet returns the stake plus the stake at the advertised odds. */
  lemma SimplePayoutMatchesAdvertisedOdds(bets: map<int, Wager>, result: Side, u: int)
    requires u in SimpleDue(bets, result)
    ensures SimpleDue(bets, result)[u] == bets[u].amount + bets[u].amount * AdvertisedOdds(result)
  {
  }

  /** One winner's share of an interactive pool: the pool less its 5% fee, split equally. */
  function PvpShare(stake: real, bettors: nat, winnerCount: nat): (share: real)
    requires winnerCount > 0
    ensures winnerCount as real * share == 0.95 * stake * bettors as real
    ensures stake >= 0.0 ==> share >= 0.0
  {
    var pool := stake * bettors as real;
    var fee := pool * 0.05;
    assert stake >= 0.0 ==> pool >= 0.0 && pool - fee >= 0.0;
    (pool - fee) / winnerCount as real
  }

  /**
   * Interactive mode: with no winner nothing is owed (the bot returns
   * before its refund loop); otherwise each winner is owed an equal share
   * of the pool less the fee.
   */
  function PvpDue(winners: set<int>, stake: real, bettors: nat): (due: map<int, real>)
    ensures due.Keys == winners
    ensures forall u :: u in due ==> due[u] == PvpShare(stake, bettors, |winners|)
  {
    if winners == {} then map[] else map u | u in winners :: PvpShare(stake, bettors, |winners|)
  }

  /** Sum of the amounts of a payout map. */
  ghost function Total(m: map<int, real>): real
    decreases |m|
  {
    if m == map[] then 0.0
    else
      HasKey(m);
      var k :| k in m;
      m[k] + Total(m - {k})
  }

  /** A payout map whose amounts are all `v` sums to `v` per entry. */
  lemma {:induction false} TotalOfEqualAmounts(m: map<int, real>, v: real)
    requires forall k :: k in m ==> m[k] == v
    ensures Total(m) == |m| as real * v
    decreases |m|
  {
    if m != map[] {
      HasKey(m);
      var k :| k in m && Total(m) == m[k] + Total(m - {k});
      TotalOfEqualAmounts(m - {k}, v);
    }
  }

  /**
   * The interactive shares add up to the pool less the 5% fee, that is 95%
   * of the stake times the number of bettors, whenever somebody wins.
   */
  lemma {:induction false} PvpSharesSumToPrizePool(winners: set<int>, stake: real, bettors: nat)
    requires winners != {}
    ensures Total(PvpDue(winners, stake, bettors)) == 0.95 * stake * bettors as real
  {
    var due := PvpDue(winners, stake, bettors);
    var share := PvpShare(stake, bettors, |winners|);
    TotalOfEqualAmounts(due, share);
    assert |due| == |winners| by {
      assert due.Keys == winners;
    }
  }

  /** No winner, no payout: the refund loop after the early return never runs. */
  lemma NoWinnerNoPayout(stake: real, bettors: nat)
    ensures PvpDue({}, stake, bettors) == map[]
  {
  }

  /** Four bettors at 0.25 make a pool of 1; one winner gets 0.95, two winners 0.475 each. */
  lemma PvpShareExamples()
    ensures PvpShare(0.25, 4, 1) == 0.95
    ensures PvpShare(0.25, 4, 2) == 0.475
  {
  }

  /** The payouts that are issued: the amounts owed to recipients that have a wallet. */
  function Issued(due: map<int, real>, wallets: set<int>): (paid: map<int, real>)
    ensures paid.Keys == due.Keys * wallets
    ensures forall u :: u in paid ==> paid[u] == due[u]
  {
    map u | u in due && u in wallets :: due[u]
  }

  /**
   * The payout loop: it walks the recipients and issues the amount owed to
   * each one that has a wallet, skipping the others.
   */
  method IssuePayouts(due: map<int, real>, wallets: set<int>) returns (paid: map<int, real>)
    ensures paid.Keys == due.Keys * wallets
    ensures forall u :: u in paid ==> paid[u] == due[u]
    ensures paid == Issued(due, wallets)
  {
    paid := map[];
    var pending := due.Keys;
    while pending != {}
      invariant pending <= due.Keys
      invariant paid.Keys == (due.Keys - pending) * wallets
      invariant forall u :: u in paid ==> paid[u] == due[u]
      decreases pending
    {
      Inhabited(pending);
      var u :| u in pending;
      pending := pending - {u};
      if u !in wallets {
        continue;
      }
      paid := paid[u := due[u]];
    }
  }

  /**
   * The withdrawals issued in an interactive round: one share per winner
   * with a wallet, so never more than the prize pool when the stake is not
   * negative, and exactly the prize pool when every winner has a wallet.
   */
  lemma {:induction false} PvpPaidWithinPrizePool(winners: set<int>, stake: real, bettors: nat, wallets: set<int>)
    requires winners != {} && stake >= 0.0
    ensures Total(Issued(PvpDue(winners, stake, bettors), wallets)) <= 0.95 * stake * bettors as real
    ensures winners <= wallets ==> Total(Issued(PvpDue(winners, stake, bettors), wallets)) == 0.95 * stake * bettors as real
  {
    PaidAreShares(winners, stake, bettors, wallets);
    EqualSharesWithinPrize(Issued(PvpDue(winners, stake, bettors), wallets), winners,
      PvpShare(stake, bettors, |winners|), 0.95 * stake * bettors as real);
    if winners <= wallets {
      PvpSharesSumToPrizePool(winners, stake, bettors);
    }
  }

  /** Helper: equal amounts paid to some members of a group sum to at most the group's total. */
  lemma EqualSharesWithinPrize(paid: map<int, real>, group: set<int>, share: real, prize: real)
    requires paid.Keys <= group && share >= 0.0 && |group| as real * share == prize
    requires forall k :: k in paid ==> paid[k] == share
    ensures Total(paid) <= prize
  {
    TotalOfEqualAmounts(paid, share);
    SubsetCard(paid.Keys, group);
    ScaleMonotone(|paid| as real, |group| as real, share);
  }

  /** The interactive payouts issued are one share to each winner with a wallet. */
  lemma PaidAreShares(winners: set<int>, stake: real, bettors: nat, wallets: set<int>)
    requires winners != {}
    ensures var paid := Issued(PvpDue(winners, stake, bettors), wallets);
      && paid.Keys == winners * wallets
      && (forall k :: k in paid ==> paid[k] == PvpShare(stake, bettors, |winners|))
      && (winners <= wallets ==> paid == PvpDue(winners, stake, bettors))
  {
  }

  lemma ScaleMonotone(a: real, b: real, c: real)
    requires a <= b && c >= 0.0
    ensures a * c <= b * c
  {
    assert b * c - a * c == (b - a) * c;
  }

  lemma SubsetCard(a: set<int>, b: set<int>)
    requires a <= b
    ensures |a| <= |b|
  {
    if a != b {
      assert |b| == |a| + |b - a|;
    }
  }
}
