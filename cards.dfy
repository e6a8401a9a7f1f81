/**
 * Cards and the 52-card deck of the simulator (src/App.tsx, `suits`, `ranks`, `createDeck`,
 * `getRankValue`). Ranks and suits are enumerations instead of strings.
 */
module Cards {
  import opened Seqs

  datatype Suit = Spades | Hearts | Diamonds | Clubs

  datatype Rank = Ace | Two | Three | Four | Five | Six | Seven | Eight | Nine | Ten | Jack | Queen | King

  datatype Card = Card(rank: Rank, suit: Suit)

  /** The suits, in the order the deck is built from. */
  const Suits: seq<Suit> := [Spades, Hearts, Diamonds, Clubs]

  /** The ranks, in the order the deck is built from: the ace first. */
  const Ranks: seq<Rank> :=
    [Ace, Two, Three, Four, Five, Six, Seven, Eight, Nine, Ten, Jack, Queen, King]

  /** The value used for every comparison: the ace is high (14), court cards 11 to 13, the rest their face value. */
  function RankValue(r: Rank): (v: int)
    ensures 2 <= v <= 14
    ensures v == 14 <==> r == Ace
    ensures forall i :: 1 <= i < |Ranks| && Ranks[i] == r ==> v == i + 1
  {
    match r
    case Ace => 14
    case King => 13
    case Queen => 12
    case Jack => 11
    case Two => 2
    case Three => 3
    case Four => 4
    case Five => 5
    case Six => 6
    case Seven => 7
    case Eight => 8
    case Nine => 9
    case Ten => 10
  }

  function CardValue(c: Card): int {
    RankValue(c.rank)
  }

  /** Distinct ranks have distinct values, so the value determines the rank. */
  lemma RankValueInjective(a: Rank, b: Rank)
    ensures RankValue(a) == RankValue(b) ==> a == b
  {
  }

  /** Position of a suit in `Suits`. */
  function SuitIndex(s: Suit): (i: nat)
    ensures i < |Suits| && Suits[i] == s
  {
    match s
    case Spades => 0
    case Hearts => 1
    case Diamonds => 2
    case Clubs => 3
  }

  /** Position of a rank in `Ranks`. */
  function RankIndex(r: Rank): (i: nat)
    ensures i < |Ranks| && Ranks[i] == r
  {
    match r
    case Ace => 0
    case Two => 1
    case Three => 2
    case Four => 3
    case Five => 4
    case Six => 5
    case Seven => 6
    case Eight => 7
    case Nine => 8
    case Ten => 9
    case Jack => 10
    case Queen => 11
    case King => 12
  }

  lemma RanksInjective(i: int)
    requires 0 <= i < |Ranks|
    ensures RankIndex(Ranks[i]) == i
  {
    assert i == 0 || i == 1 || i == 2 || i == 3 || i == 4 || i == 5 || i == 6 ||
           i == 7 || i == 8 || i == 9 || i == 10 || i == 11 || i == 12;
  }

  lemma SuitsInjective(i: int)
    requires 0 <= i < |Suits|
    ensures SuitIndex(Suits[i]) == i
  {
    assert i == 0 || i == 1 || i == 2 || i == 3;
  }

  /** The deck in construction order: suit-major, every rank of `Suits[0]` first. */
  function CanonicalDeck(): seq<Card> {
    seq(52, k requires 0 <= k < 52 => Card(Ranks[k % 13], Suits[k / 13]))
  }

  /** The canonical deck holds each card at exactly one position. */
  lemma CanonicalDeckNoDup()
    ensures NoDup(CanonicalDeck())
  {
    var d := CanonicalDeck();
    forall i, j | 0 <= i < j < 52 ensures d[i] != d[j] {
      RanksInjective(i % 13);
      RanksInjective(j % 13);
      SuitsInjective(i / 13);
      SuitsInjective(j / 13);
      assert i == 13 * (i / 13) + i % 13;
      assert j == 13 * (j / 13) + j % 13;
    }
  }

  /** Where a card sits in the canonical deck. */
  lemma CanonicalDeckPosition(c: Card)
    ensures 13 * SuitIndex(c.suit) + RankIndex(c.rank) < 52
    ensures CanonicalDeck()[13 * SuitIndex(c.suit) + RankIndex(c.rank)] == c
  {
    var k := 13 * SuitIndex(c.suit) + RankIndex(c.rank);
    assert k % 13 == RankIndex(c.rank) && k / 13 == SuitIndex(c.suit);
  }

  /** Every (rank, suit) pair occurs exactly once in the canonical deck. */
  lemma CanonicalDeckExactlyOnce(c: Card)
    ensures multiset(CanonicalDeck())[c] == 1
  {
    CanonicalDeckNoDup();
    CanonicalDeckPosition(c);
    NoDupCount(CanonicalDeck(), c);
  }

  /** `createDeck`: pushes every rank of every suit, suits in the outer loop. */
  method CreateDeck() returns (deck: seq<Card>)
    ensures deck == CanonicalDeck()
    ensures |deck| == 52
    ensures forall c: Card :: multiset(deck)[c] == 1
  {
    deck := [];
    for s := 0 to |Suits|
      invariant deck == CanonicalDeck()[..13 * s]
    {
      for r := 0 to |Ranks|
        invariant deck == CanonicalDeck()[..13 * s + r]
      {
        assert (13 * s + r) % 13 == r && (13 * s + r) / 13 == s;
        assert CanonicalDeck()[..13 * s + r + 1] == CanonicalDeck()[..13 * s + r] + [Card(Ranks[r], Suits[s])];
        deck := deck + [Card(Ranks[r], Suits[s])];
      }
    }
    assert deck == CanonicalDeck();
    forall c: Card ensures multiset(deck)[c] == 1 {
      CanonicalDeckExactlyOnce(c);
    }
  }
}
