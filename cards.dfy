/**
 * Cards and hands of the baccarat engine.
 *
 * A card is its rank: 1 is the Ace, 2..10 the pip cards, 11, 12, 13 the
 * Jack, Queen and King. The functions accept any integer, as the bot
 * does, and say what they promise for the ranks the dealer produces.
 */
module Cards {
  import opened Options

  /** Outcome of a baccarat coup, and one of the sides a player can back. */
  datatype Side = Player | Banker | Tie

  /** Points of one card: an Ace counts 1, ranks 10 and up count 0, every other card its rank. */
  function CardValue(card: int): (v: int)
    ensures 1 <= card ==> 0 <= v <= 9
    ensures card <= 9 ==> v == card
    ensures 10 <= card ==> v == 0
  {
    if card == 1 then 1
    else if card >= 10 then 0
    else card
  }

  /** Sum of the card values of a hand, before the final modulo: at most 9 per card of the deck. */
  function PointSum(cards: seq<int>): (s: int)
    ensures (forall i :: 0 <= i < |cards| ==> 1 <= cards[i]) ==> 0 <= s <= 9 * |cards|
  {
    if cards == [] then 0 else CardValue(cards[0]) + PointSum(cards[1..])
  }

  /**
   * Total of a hand: the sum of its card values modulo 10. Python's `%` with a
   * positive divisor is the floor modulo, which agrees with Dafny's Euclidean
   * `%`, so the total lies in 0..9 for every hand, even one of odd ranks.
   */
  function HandTotal(cards: seq<int>): (t: int)
    ensures 0 <= t <= 9
    ensures (t - PointSum(cards)) % 10 == 0
  {
    PointSum(cards) % 10
  }

  /** Drawing a card adds its value to the total, modulo 10. */
  lemma {:induction false} HandTotalAppend(cards: seq<int>, card: int)
    ensures HandTotal(cards + [card]) == (HandTotal(cards) + CardValue(card)) % 10
  {
    PointSumAppend(cards, card);
    AddModTen(PointSum(cards), CardValue(card));
  }

  /** Helper: reducing the first addend modulo 10 does not change the sum modulo 10. */
  lemma AddModTen(a: int, v: int)
    ensures (a + v) % 10 == (a % 10 + v) % 10
  {
    assert a + v == (a % 10 + v) + 10 * (a / 10);
  }

  lemma {:induction false} PointSumAppend(cards: seq<int>, card: int)
    ensures PointSum(cards + [card]) == PointSum(cards) + CardValue(card)
  {
    if cards != [] {
      assert (cards + [card])[1..] == cards[1..] + [card];
      PointSumAppend(cards[1..], card);
    }
  }

  /** The side whose hand total is higher wins; equal totals are a tie. */
  function DetermineWinner(player: seq<int>, banker: seq<int>): (r: Side)
    ensures r == Player <==> HandTotal(player) > HandTotal(banker)
    ensures r == Banker <==> HandTotal(player) < HandTotal(banker)
    ensures r == Tie <==> HandTotal(player) == HandTotal(banker)
  {
    var p := HandTotal(player);
    var b := HandTotal(banker);
    if p > b then Player
    else if b > p then Banker
    else Tie
  }

  /** The thirteen card symbols a player may pick, in rank order: Symbols[r - 1] names rank r. */
  const Symbols: seq<string> := ["A", "2", "3", "4", "5", "6", "7", "8", "9", "10", "J", "Q", "K"]

  /** Decimal rendering of an integer, as Python's `str` of an int. */
  function DecimalString(n: int): string
  {
    if n < 0 then "-" + NatString(-n) else NatString(n)
  }

  function NatString(n: nat): string
    decreases n
  {
    if n < 10 then [Digit(n)] else NatString(n / 10) + [Digit(n % 10)]
  }

  function Digit(d: nat): char
    requires d < 10
  {
    ('0' as int + d) as char
  }

  /** Value of a string of decimal digits, as Python's `int` of such a string. */
  function DigitsValue(s: string): int
  {
    if s == [] then 0 else DigitsValue(s[..|s| - 1]) * 10 + (s[|s| - 1] as int - '0' as int)
  }

  /**
   * Renders a card: its letter for an Ace and the three court cards, its
   * decimal rank otherwise. For every rank of the deck this is that rank's symbol.
   */
  function CardToString(card: int): (s: string)
    ensures 1 <= card <= 13 ==> s == Symbols[card - 1]
  {
    if card == 1 then "A"
    else if card == 11 then "J"
    else if card == 12 then "Q"
    else if card == 13 then "K"
    else DecimalString(card)
  }

  /**
   * Reads a picked card symbol: None for anything outside the thirteen
   * symbols, otherwise the rank, the letters through the letter map and the
   * rest through their decimal value.
   */
  function CardFromSymbol(symbol: string): (r: Option<int>)
    ensures r.Some? <==> symbol in Symbols
    ensures r.Some? ==> 1 <= r.value <= 13 && Symbols[r.value - 1] == symbol
  {
    if symbol !in Symbols then None
    else if symbol == "A" then Some(1)
    else if symbol == "J" then Some(11)
    else if symbol == "Q" then Some(12)
    else if symbol == "K" then Some(13)
    else
      DigitSymbolValues();
      Some(DigitsValue(symbol))
  }

  /** The pip symbols "2".."10" read back as their ranks. */
  lemma DigitSymbolValues()
    ensures forall i :: 1 <= i <= 9 ==> DigitsValue(Symbols[i]) == i + 1
  {
    assert DigitsValue("1") == 1;
    assert DigitsValue("10") == 10;
  }

  /** Rendering a rank and reading it back gives the rank again. */
  lemma SymbolOfRankRoundTrip(card: int)
    requires 1 <= card <= 13
    ensures CardFromSymbol(CardToString(card)) == Some(card)
  {
    var r := CardFromSymbol(Symbols[card - 1]);
    SymbolsDistinct(r.value - 1, card - 1);
  }

  /** Reading a symbol and rendering the rank gives the symbol again. */
  lemma RankOfSymbolRoundTrip(symbol: string)
    requires symbol in Symbols
    ensures CardFromSymbol(symbol).Some? && CardToString(CardFromSymbol(symbol).value) == symbol
  {
  }

  lemma SymbolsDistinct(i: int, j: int)
    requires 0 <= i < |Symbols| && 0 <= j < |Symbols|
    requires Symbols[i] == Symbols[j]
    ensures i == j
  {
  }
}
