/** Cards of the Kobo game: ranks, suits and the card record with its
    `discovered` flag (kobo_ai.py, classes Rank, Suit and Card). */
module Cards {

  datatype Option<T> = None | Some(value: T)

  /** The thirteen ranks, in the enumeration order of the source. */
  datatype Rank = Ace | Two | Three | Four | Five | Six | Seven | Eight | Nine | Ten | Jack | Queen | King
  {
    /** The enumeration value, which the AI also uses as the point value. */
    function Value(): (v: int)
      ensures 1 <= v <= 13
    {
      match this
      case Ace => 1
      case Two => 2
      case Three => 3
      case Four => 4
      case Five => 5
      case Six => 6
      case Seven => 7
      case Eight => 8
      case Nine => 9
      case Ten => 10
      case Jack => 11
      case Queen => 12
      case King => 13
    }

    /** The text a card shows; card equality compares this text. */
    function Format(): string
    {
      match this
      case Ace => "1"
      case Two => "2"
      case Three => "3"
      case Four => "4"
      case Five => "5"
      case Six => "6"
      case Seven => "7"
      case Eight => "8"
      case Nine => "9"
      case Ten => "10"
      case Jack => "J"
      case Queen => "Q"
      case King => "K"
    }
  }

  datatype Suit = Club | Diamond | Heart | Spade

  /** Ranks in enumeration order: position k holds the rank of value k + 1. */
  const AllRanks: seq<Rank> := [Ace, Two, Three, Four, Five, Six, Seven, Eight, Nine, Ten, Jack, Queen, King]

  /** Suits in enumeration order. */
  const AllSuits: seq<Suit> := [Club, Diamond, Heart, Spade]

  /** The rank whose text is `s`, if any: the inverse of Format. */
  function FromFormat(s: string): (r: Option<Rank>)
    ensures r.Some? ==> r.value.Format() == s
  {
    if s == "1" then Some(Ace)
    else if s == "2" then Some(Two)
    else if s == "3" then Some(Three)
    else if s == "4" then Some(Four)
    else if s == "5" then Some(Five)
    else if s == "6" then Some(Six)
    else if s == "7" then Some(Seven)
    else if s == "8" then Some(Eight)
    else if s == "9" then Some(Nine)
    else if s == "10" then Some(Ten)
    else if s == "J" then Some(Jack)
    else if s == "Q" then Some(Queen)
    else if s == "K" then Some(King)
    else None
  }

  lemma FormatRoundTrip(r: Rank)
    ensures FromFormat(r.Format()) == Some(r)
  {
    match r
    case Ace =>
    case Two =>
    case Three =>
    case Four =>
    case Five =>
    case Six =>
    case Seven =>
    case Eight =>
    case Nine =>
    case Ten =>
    case Jack =>
    case Queen =>
    case King =>
  }

  /** Enumeration order and value agree: AllRanks lists every rank once, by value. */
  lemma AllRanksByValue(k: int)
    requires 0 <= k < 13
    ensures |AllRanks| == 13 && AllRanks[k].Value() == k + 1
  {
  }

  lemma RankValueInjective(a: Rank, b: Rank)
    ensures a.Value() == b.Value() <==> a == b
  {
    FormatRoundTrip(a);
    FormatRoundTrip(b);
    match a
    case Ace =>
    case Two =>
    case Three =>
    case Four =>
    case Five =>
    case Six =>
    case Seven =>
    case Eight =>
    case Nine =>
    case Ten =>
    case Jack =>
    case Queen =>
    case King =>
  }

  /** A card; a freshly built card is hidden. */
  datatype Card = Card(rank: Rank, suit: Suit, discovered: bool)

  function NewCard(rank: Rank, suit: Suit): (c: Card)
    ensures c.rank == rank && c.suit == suit && !c.discovered
  {
    Card(rank, suit, false)
  }

  /** Card equality as the game defines it: the two cards show the same
      text. That ignores the suit and the flag: it is rank equality. */
  predicate GameEq(a: Card, b: Card): (eq: bool)
    ensures eq <==> a.rank == b.rank
  {
    FormatRoundTrip(a.rank);
    FormatRoundTrip(b.rank);
    a.rank.Format() == b.rank.Format()
  }

  /** The card with its flag set as `yes` (Card.discover). */
  function Discover(c: Card, yes: bool): Card
  {
    c.(discovered := yes)
  }

  /** Ace, Two and Ten are the cards worth keeping near the end of a round:
      the cards worth 1, 2 or 10 points. */
  predicate IsGreat(c: Card): (g: bool)
    ensures g <==> c.rank.Value() == 1 || c.rank.Value() == 2 || c.rank.Value() == 10
  {
    RankValueInjective(c.rank, Ace);
    RankValueInjective(c.rank, Two);
    RankValueInjective(c.rank, Ten);
    c.rank == Ten || c.rank == Ace || c.rank == Two
  }
}
