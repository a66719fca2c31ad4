/** The 52-card deck of `Game._init_game` (kobo_ai.py:191-199) and the
    per-rank count of `Game.nb_occurences_in_deck` (kobo_ai.py:229-230). */
module Decks {
  import opened Cards

  /** The deck in construction order, before the shuffle: suits outer, ranks
      inner, every card hidden. */
  function StandardDeck(): (d: seq<Card>)
    ensures |d| == 52
  {
    seq(52, k requires 0 <= k < 52 => NewCard(AllRanks[k % 13], AllSuits[k / 13]))
  }

  /** The nested loops of `_init_game` that append one card per (suit, rank). */
  method BuildDeck() returns (deck: seq<Card>)
    ensures deck == StandardDeck()
  {
    deck := [];
    for s := 0 to |AllSuits|
      invariant deck == StandardDeck()[..13 * s]
    {
      for r := 0 to |AllRanks|
        invariant deck == StandardDeck()[..13 * s + r]
      {
        DeckStep(s, r);
        deck := deck + [NewCard(AllRanks[r], AllSuits[s])];
      }
    }
    assert StandardDeck()[..52] == StandardDeck();
  }

  /** The card the loops append for suit s and rank r is the next card of
      the unshuffled deck. */
  lemma DeckStep(s: nat, r: nat)
    requires s < 4 && r < 13
    ensures 13 * s + r < 52
    ensures StandardDeck()[..13 * s + r + 1] == StandardDeck()[..13 * s + r] + [NewCard(AllRanks[r], AllSuits[s])]
  {
    var k := 13 * s + r;
    DeckPosition(s, r);
    assert StandardDeck()[k] == NewCard(AllRanks[r], AllSuits[s]);
    TakeOneMore(StandardDeck(), k);
  }

  lemma TakeOneMore<T>(s: seq<T>, k: nat)
    requires k < |s|
    ensures s[..k + 1] == s[..k] + [s[k]]
  {
  }

  /** Position 13 * s + r of the unshuffled deck is suit s, rank r. */
  lemma DeckPosition(s: nat, r: nat)
    requires s < 4 && r < 13
    ensures (13 * s + r) / 13 == s && (13 * s + r) % 13 == r
  {
    if s == 0 {
    } else if s == 1 {
    } else if s == 2 {
    } else {
    }
  }

  function SuitIndex(s: Suit): (i: nat)
    ensures i < 4 && AllSuits[i] == s
  {
    match s
    case Club => 0
    case Diamond => 1
    case Heart => 2
    case Spade => 3
  }

  lemma SuitsDistinct(i: nat, j: nat)
    requires i < 4 && j < 4 && i != j
    ensures AllSuits[i] != AllSuits[j]
  {
  }

  lemma RanksDistinct(i: nat, j: nat)
    requires i < 13 && j < 13 && i != j
    ensures AllRanks[i] != AllRanks[j]
  {
    AllRanksByValue(i);
    AllRanksByValue(j);
  }

  /** Two positions of the unshuffled deck hold cards of different faces. */
  lemma StandardDeckDistinctAt(a: nat, b: nat)
    requires a < b < 52
    ensures StandardDeck()[a].rank != StandardDeck()[b].rank || StandardDeck()[a].suit != StandardDeck()[b].suit
  {
    assert StandardDeck()[a] == NewCard(AllRanks[a % 13], AllSuits[a / 13]);
    assert StandardDeck()[b] == NewCard(AllRanks[b % 13], AllSuits[b / 13]);
    if a / 13 != b / 13 {
      SuitsDistinct(a / 13, b / 13);
    } else {
      assert a % 13 != b % 13;
      RanksDistinct(a % 13, b % 13);
    }
  }

  /** The unshuffled deck: 52 hidden cards, pairwise distinct as (rank, suit). */
  lemma StandardDeckDistinct()
    ensures forall k :: 0 <= k < 52 ==> !StandardDeck()[k].discovered
    ensures forall a, b :: 0 <= a < b < 52 ==>
              StandardDeck()[a].rank != StandardDeck()[b].rank || StandardDeck()[a].suit != StandardDeck()[b].suit
  {
    forall a, b | 0 <= a < b < 52
      ensures StandardDeck()[a].rank != StandardDeck()[b].rank || StandardDeck()[a].suit != StandardDeck()[b].suit
    {
      StandardDeckDistinctAt(a, b);
    }
  }

  /** Every (rank, suit) pair is in the unshuffled deck. */
  lemma StandardDeckHasEveryCard(r: Rank, s: Suit)
    ensures exists k :: 0 <= k < 52 && StandardDeck()[k].rank == r && StandardDeck()[k].suit == s
  {
    var k := 13 * SuitIndex(s) + (r.Value() - 1);
    AllRanksByValue(r.Value() - 1);
    RankValueInjective(AllRanks[r.Value() - 1], r);
    DeckPosition(SuitIndex(s), r.Value() - 1);
    assert StandardDeck()[k].rank == r && StandardDeck()[k].suit == s;
  }

  /** `order` lists every position below `n` exactly once. */
  predicate IsPermutation(order: seq<nat>, n: nat)
  {
    |order| == n
    && (forall k :: 0 <= k < n ==> order[k] < n)
    && (forall a, b :: 0 <= a < b < n ==> order[a] != order[b])
  }

  /** The deck after `random.shuffle`: the card at position k is the card that
      was at `order[k]`. The shuffle's randomness is the choice of `order`. */
  function Shuffled(d: seq<Card>, order: seq<nat>): (e: seq<Card>)
    requires IsPermutation(order, |d|)
    ensures |e| == |d|
  {
    seq(|d|, k requires 0 <= k < |d| => d[order[k]])
  }

  /** Whatever the shuffle, the deck holds 52 hidden cards, pairwise distinct
      as (rank, suit), each a card of the unshuffled deck. */
  lemma ShuffledDeckWellFormed(order: seq<nat>)
    requires IsPermutation(order, 52)
    ensures |Shuffled(StandardDeck(), order)| == 52
    ensures forall k :: 0 <= k < 52 ==> !Shuffled(StandardDeck(), order)[k].discovered
    ensures forall k :: 0 <= k < 52 ==> Shuffled(StandardDeck(), order)[k] in StandardDeck()
    ensures forall a, b :: 0 <= a < b < 52 ==>
              Shuffled(StandardDeck(), order)[a].rank != Shuffled(StandardDeck(), order)[b].rank
              || Shuffled(StandardDeck(), order)[a].suit != Shuffled(StandardDeck(), order)[b].suit
  {
    var d, e := StandardDeck(), Shuffled(StandardDeck(), order);
    forall a, b | 0 <= a < b < 52
      ensures e[a].rank != e[b].rank || e[a].suit != e[b].suit
    {
      if order[a] < order[b] {
        StandardDeckDistinctAt(order[a], order[b]);
      } else {
        StandardDeckDistinctAt(order[b], order[a]);
      }
    }
  }

  /** The number of cards of rank `r` (nb_occurences_in_deck). */
  function CountRank(s: seq<Card>, r: Rank): (n: nat)
    ensures n <= |s|
    ensures n == 0 <==> forall k :: 0 <= k < |s| ==> s[k].rank != r
  {
    if s == [] then 0
    else CountRank(s[..|s| - 1], r) + (if s[|s| - 1].rank == r then 1 else 0)
  }

  /** The counts of all the ranks in `rs` added up. */
  function CountRanks(s: seq<Card>, rs: seq<Rank>): nat
  {
    if rs == [] then 0 else CountRank(s, rs[0]) + CountRanks(s, rs[1..])
  }

  /** How many times `r` is listed in `rs`. */
  function Listed(rs: seq<Rank>, r: Rank): nat
  {
    if rs == [] then 0 else (if rs[0] == r then 1 else 0) + Listed(rs[1..], r)
  }

  lemma {:induction false} CountRanksStep(s: seq<Card>, rs: seq<Rank>)
    requires s != []
    ensures CountRanks(s, rs) == CountRanks(s[..|s| - 1], rs) + Listed(rs, s[|s| - 1].rank)
  {
    if rs != [] {
      CountRanksStep(s, rs[1..]);
    }
  }

  lemma AllRanksListOnce(r: Rank)
    ensures Listed(AllRanks, r) == 1
  {
    ListedFrom(r, 0);
  }

  /** The ranks from position k on list `r` once if its value is above k. */
  lemma {:induction false} ListedFrom(r: Rank, k: nat)
    requires k <= 13
    ensures Listed(AllRanks[k..], r) == if r.Value() > k then 1 else 0
    decreases 13 - k
  {
    if k < 13 {
      ListedFrom(r, k + 1);
      ListedStep(AllRanks, k, r);
      AllRanksByValue(k);
      RankValueInjective(AllRanks[k], r);
    }
  }

  lemma ListedStep(rs: seq<Rank>, k: nat, r: Rank)
    requires k < |rs|
    ensures Listed(rs[k..], r) == (if rs[k] == r then 1 else 0) + Listed(rs[k + 1..], r)
  {
    assert rs[k..][1..] == rs[k + 1..];
  }

  /** The per-rank counts partition any list of cards: over the thirteen
      ranks they add up to its length. */
  lemma {:induction false} CountsAddUpToLength(s: seq<Card>)
    ensures CountRanks(s, AllRanks) == |s|
  {
    if s == [] {
      CountRanksEmpty(AllRanks);
    } else {
      CountsAddUpToLength(s[..|s| - 1]);
      CountRanksStep(s, AllRanks);
      AllRanksListOnce(s[|s| - 1].rank);
    }
  }

  lemma {:induction false} CountRanksEmpty(rs: seq<Rank>)
    ensures CountRanks([], rs) == 0
  {
    if rs != [] {
      CountRanksEmpty(rs[1..]);
    }
  }
}
