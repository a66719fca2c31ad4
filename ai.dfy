/** The AI's move choice (kobo_ai.py, AIPlayer.play, lines 370-561): its
    helper searches and the priority ladder that picks between replacing a
    card of the hand and declining the drawn card. */
module Ai {
  import opened Cards
  import opened Hands
  import opened Decks

  /** The AI's decision for a turn, and whether the ladder itself announced
      Kobo (kobo_ai.py:540). */
  datatype Choice = Choice(move: Move, announcesKobo: bool)

  // ---------------------------------------------------------------------
  // Small searches
  // ---------------------------------------------------------------------

  /** `get_first_card_index`: the first position holding rank `r`, or -1. */
  function FirstCardIndex(cards: seq<Card>, r: Rank): (i: int)
    ensures -1 <= i < |cards|
    ensures i == -1 <==> forall k :: 0 <= k < |cards| ==> cards[k].rank != r
    ensures i >= 0 ==> cards[i].rank == r && forall k :: 0 <= k < i ==> cards[k].rank != r
  {
    if cards == [] then -1
    else if cards[0].rank == r then 0
    else
      var j := FirstCardIndex(cards[1..], r);
      if j == -1 then -1 else j + 1
  }

  /** `check_kobo`: every card is an Ace, a Two or a Ten. */
  function AllGreat(cards: seq<Card>): (b: bool)
    ensures b <==> forall k :: 0 <= k < |cards| ==> IsGreat(cards[k])
  {
    if cards == [] then true
    else IsGreat(cards[0]) && AllGreat(cards[1..])
  }

  /** The deterministic part of `get_random_card_index`: 0 for no cards,
      else the first position not yet peeked at; None stands for the random
      fallback taken when every position was peeked at. */
  function UnpeekedIndex(n: nat, peeked: seq<int>): (r: Option<int>)
    ensures n == 0 ==> r == Some(0)
    ensures n > 0 && r.Some? ==>
              0 <= r.value < n && r.value !in peeked && forall j :: 0 <= j < r.value ==> j in peeked
    ensures n > 0 && r == None ==> forall j :: 0 <= j < n ==> j in peeked
  {
    if n == 0 then Some(0) else UnpeekedFrom(n, peeked, 0)
  }

  function UnpeekedFrom(n: nat, peeked: seq<int>, i: nat): (r: Option<int>)
    requires i <= n
    requires forall j :: 0 <= j < i ==> j in peeked
    ensures r.Some? ==> i <= r.value < n && r.value !in peeked && forall j :: 0 <= j < r.value ==> j in peeked
    ensures r == None ==> forall j :: 0 <= j < n ==> j in peeked
    decreases n - i
  {
    if i == n then None
    else if i !in peeked then Some(i)
    else UnpeekedFrom(n, peeked, i + 1)
  }

  /** `get_hidden_card_index`: the first hidden position of the hand, or -1. */
  function HiddenCardIndex(hand: seq<Card>): (i: int)
    ensures i == -1 <==> forall k :: 0 <= k < |hand| ==> hand[k].discovered
    ensures i >= 0 ==> i == FirstHidden(hand) && i < |hand|
  {
    var h := HiddenIndices(hand);
    if |h| > 0 then
      assert FirstHidden(hand) <= h[0];
      assert FirstHidden(hand) in h;
      h[0]
    else -1
  }

  // ---------------------------------------------------------------------
  // get_best_hit_index
  // ---------------------------------------------------------------------

  /** The early exits of `get_best_hit_index` for a card past position 0: a
      Queen while the AI has a hidden card, or a card that is not great and
      of which only one or two are left in the deck. */
  predicate QuickHit(c: Card, hasHidden: bool, deck: seq<Card>)
  {
    (c.rank == Queen && hasHidden) || (1 <= CountRank(deck, c.rank) <= 2 && !IsGreat(c))
  }

  /** Positions that compete for the highest value: position 0 (the start
      value) and every later position whose rank is not ignored. */
  predicate Competes(cards: seq<Card>, j: nat, ignore: Option<Rank>)
    requires j < |cards|
  {
    j == 0 || ignore != Some(cards[j].rank)
  }

  /** Position m holds the first highest value among the competing positions. */
  predicate IsFirstHighest(cards: seq<Card>, m: nat, ignore: Option<Rank>)
  {
    m < |cards| && Competes(cards, m, ignore)
    && (forall j :: 0 <= j < |cards| && Competes(cards, j, ignore) ==>
          cards[j].rank.Value() <= cards[m].rank.Value())
    && (forall j :: 0 <= j < m && Competes(cards, j, ignore) ==>
          cards[j].rank.Value() < cards[m].rank.Value())
  }

  /** The scan of `get_best_hit_index` from position i, with the highest
      value so far and its position. */
  function BestHitFrom(cards: seq<Card>, i: nat, worst: int, worstIdx: nat,
                       hasHidden: bool, deck: seq<Card>, ignore: Option<Rank>): (r: nat)
    requires 1 <= i <= |cards| && worstIdx < i
    ensures r < |cards|
    decreases |cards| - i
  {
    if i == |cards| then worstIdx
    else if QuickHit(cards[i], hasHidden, deck) then i
    else if cards[i].rank.Value() > worst && ignore != Some(cards[i].rank) then
      BestHitFrom(cards, i + 1, cards[i].rank.Value(), i, hasHidden, deck, ignore)
    else
      BestHitFrom(cards, i + 1, worst, worstIdx, hasHidden, deck, ignore)
  }

  /** `get_best_hit_index`: the card the AI would rather get rid of. */
  function BestHitIndex(cards: seq<Card>, hasHidden: bool, deck: seq<Card>, ignore: Option<Rank>): (r: nat)
    requires |cards| >= 1
    ensures r < |cards|
  {
    BestHitFrom(cards, 1, cards[0].rank.Value(), 0, hasHidden, deck, ignore)
  }

  lemma BestHitFromMeaning(cards: seq<Card>, i: nat, worst: int, worstIdx: nat,
                           hasHidden: bool, deck: seq<Card>, ignore: Option<Rank>)
    requires HighestSoFar(cards, i, worst, worstIdx, ignore)
    ensures var r := BestHitFrom(cards, i, worst, worstIdx, hasHidden, deck, ignore);
            (exists j :: i <= j < |cards| && QuickHit(cards[j], hasHidden, deck)) ==>
              i <= r && QuickHit(cards[r], hasHidden, deck)
              && forall j :: i <= j < r ==> !QuickHit(cards[j], hasHidden, deck)
    ensures (forall j :: i <= j < |cards| ==> !QuickHit(cards[j], hasHidden, deck)) ==>
              IsFirstHighest(cards, BestHitFrom(cards, i, worst, worstIdx, hasHidden, deck, ignore), ignore)
  {
    if exists j :: i <= j < |cards| && QuickHit(cards[j], hasHidden, deck) {
      BestHitFromQuick(cards, i, worst, worstIdx, hasHidden, deck, ignore);
    } else {
      BestHitFromHighest(cards, i, worst, worstIdx, hasHidden, deck, ignore);
    }
  }

  /** The scan stops at the first early exit from position i on. */
  lemma {:induction false} BestHitFromQuick(cards: seq<Card>, i: nat, worst: int, worstIdx: nat,
                                            hasHidden: bool, deck: seq<Card>, ignore: Option<Rank>)
    requires 1 <= i <= |cards| && worstIdx < i
    requires exists j :: i <= j < |cards| && QuickHit(cards[j], hasHidden, deck)
    ensures var r := BestHitFrom(cards, i, worst, worstIdx, hasHidden, deck, ignore);
            i <= r && QuickHit(cards[r], hasHidden, deck)
            && forall j :: i <= j < r ==> !QuickHit(cards[j], hasHidden, deck)
    decreases |cards| - i
  {
    if !QuickHit(cards[i], hasHidden, deck) {
      if cards[i].rank.Value() > worst && ignore != Some(cards[i].rank) {
        BestHitFromQuick(cards, i + 1, cards[i].rank.Value(), i, hasHidden, deck, ignore);
      } else {
        BestHitFromQuick(cards, i + 1, worst, worstIdx, hasHidden, deck, ignore);
      }
    }
  }

  /** Without an early exit from position i on, the scan ends at the first
      highest competing value. */
  lemma {:induction false} BestHitFromHighest(cards: seq<Card>, i: nat, worst: int, worstIdx: nat,
                                              hasHidden: bool, deck: seq<Card>, ignore: Option<Rank>)
    requires HighestSoFar(cards, i, worst, worstIdx, ignore)
    requires forall j {:trigger QuickHit(cards[j], hasHidden, deck)} ::
               i <= j < |cards| ==> !QuickHit(cards[j], hasHidden, deck)
    ensures IsFirstHighest(cards, BestHitFrom(cards, i, worst, worstIdx, hasHidden, deck, ignore), ignore)
    decreases |cards| - i
  {
    if i == |cards| {
      HighestAtEnd(cards, worst, worstIdx, hasHidden, deck, ignore);
    } else {
      var w, idx := ScanStep(cards, i, worst, worstIdx, hasHidden, deck, ignore);
      BestHitFromHighest(cards, i + 1, w, idx, hasHidden, deck, ignore);
      HighestCarries(cards, i, worst, worstIdx, w, idx, hasHidden, deck, ignore);
    }
  }



  /** The scan from i ends where the scan from the next state ends. */
  lemma HighestCarries(cards: seq<Card>, i: nat, worst: int, worstIdx: nat, w: int, idx: nat,
                       hasHidden: bool, deck: seq<Card>, ignore: Option<Rank>)
    requires 1 <= i < |cards| && worstIdx < i && idx < i + 1
    requires BestHitFrom(cards, i, worst, worstIdx, hasHidden, deck, ignore)
          == BestHitFrom(cards, i + 1, w, idx, hasHidden, deck, ignore)
    requires IsFirstHighest(cards, BestHitFrom(cards, i + 1, w, idx, hasHidden, deck, ignore), ignore)
    ensures IsFirstHighest(cards, BestHitFrom(cards, i, worst, worstIdx, hasHidden, deck, ignore), ignore)
  {
  }

  /** One step of the scan past a card that is not an early exit: the scan
      goes on from position i + 1 with the highest value kept or replaced. */
  lemma ScanStep(cards: seq<Card>, i: nat, worst: int, worstIdx: nat,
                 hasHidden: bool, deck: seq<Card>, ignore: Option<Rank>)
    returns (w: int, idx: nat)
    requires HighestSoFar(cards, i, worst, worstIdx, ignore) && i < |cards|
    requires !QuickHit(cards[i], hasHidden, deck)
    ensures HighestSoFar(cards, i + 1, w, idx, ignore)
    ensures BestHitFrom(cards, i, worst, worstIdx, hasHidden, deck, ignore)
         == BestHitFrom(cards, i + 1, w, idx, hasHidden, deck, ignore)
  {
    if cards[i].rank.Value() > worst && ignore != Some(cards[i].rank) {
      NewHighest(cards, i, worst, worstIdx, ignore);
      w, idx := cards[i].rank.Value(), i;
    } else {
      SameHighest(cards, i, worst, worstIdx, ignore);
      w, idx := worst, worstIdx;
    }
  }





  /** The state of the scan before position i: `worst` is the value at
      `worstIdx`, the first highest of the competing positions before i. */
  predicate HighestSoFar(cards: seq<Card>, i: nat, worst: int, worstIdx: nat, ignore: Option<Rank>)
  {
    1 <= i <= |cards| && worstIdx < i
    && worst == cards[worstIdx].rank.Value() && Competes(cards, worstIdx, ignore)
    && (forall j :: 0 <= j < i && Competes(cards, j, ignore) ==> cards[j].rank.Value() <= worst)
    && (forall j :: 0 <= j < worstIdx && Competes(cards, j, ignore) ==> cards[j].rank.Value() < worst)
  }

  /** A competing card above the highest value so far becomes the first
      highest of the positions scanned. */
  lemma NewHighest(cards: seq<Card>, i: nat, worst: int, worstIdx: nat, ignore: Option<Rank>)
    requires HighestSoFar(cards, i, worst, worstIdx, ignore) && i < |cards|
    requires cards[i].rank.Value() > worst && ignore != Some(cards[i].rank)
    ensures HighestSoFar(cards, i + 1, cards[i].rank.Value(), i, ignore)
  {
  }

  /** A card that does not beat the highest value so far leaves it unchanged. */
  lemma SameHighest(cards: seq<Card>, i: nat, worst: int, worstIdx: nat, ignore: Option<Rank>)
    requires HighestSoFar(cards, i, worst, worstIdx, ignore) && i < |cards|
    requires !(cards[i].rank.Value() > worst && ignore != Some(cards[i].rank))
    ensures HighestSoFar(cards, i + 1, worst, worstIdx, ignore)
  {
  }

  /** After the last position the scan's highest is the first highest. */
  lemma HighestAtEnd(cards: seq<Card>, worst: int, worstIdx: nat,
                     hasHidden: bool, deck: seq<Card>, ignore: Option<Rank>)
    requires HighestSoFar(cards, |cards|, worst, worstIdx, ignore)
    ensures IsFirstHighest(cards, BestHitFrom(cards, |cards|, worst, worstIdx, hasHidden, deck, ignore), ignore)
  {
    assert BestHitFrom(cards, |cards|, worst, worstIdx, hasHidden, deck, ignore) == worstIdx;
  }



  /** What `get_best_hit_index` returns: the first position past 0 that
      triggers an early exit if there is one, else the first position of the
      highest value among the competing positions. Position 0 is never
      looked at for the early exits. */
  lemma BestHitIndexMeaning(cards: seq<Card>, hasHidden: bool, deck: seq<Card>, ignore: Option<Rank>)
    requires |cards| >= 1
    ensures var r := BestHitIndex(cards, hasHidden, deck, ignore);
            (exists j :: 1 <= j < |cards| && QuickHit(cards[j], hasHidden, deck)) ==>
              1 <= r && QuickHit(cards[r], hasHidden, deck)
              && forall j :: 1 <= j < r ==> !QuickHit(cards[j], hasHidden, deck)
    ensures (forall j :: 1 <= j < |cards| ==> !QuickHit(cards[j], hasHidden, deck)) ==>
              IsFirstHighest(cards, BestHitIndex(cards, hasHidden, deck, ignore), ignore)
  {
    BestHitFromMeaning(cards, 1, cards[0].rank.Value(), 0, hasHidden, deck, ignore);
  }

  /** The loop of `get_best_hit_index`; the deck counts are read from `deck`
      as `nb_occurences_in_deck` does. */
  method GetBestHitIndex(cards: seq<Card>, hasHidden: bool, deck: seq<Card>, ignore: Option<Rank>)
    returns (r: nat)
    requires |cards| >= 1
    ensures r == BestHitIndex(cards, hasHidden, deck, ignore)
  {
    var worst := cards[0].rank.Value();
    r := 0;
    for i := 1 to |cards|
      invariant r < i
      invariant BestHitFrom(cards, i, worst, r, hasHidden, deck, ignore) == BestHitIndex(cards, hasHidden, deck, ignore)
    {
      var c := cards[i];
      if c.rank == Queen && hasHidden {
        return i;
      }
      var occurrences := CountRank(deck, c.rank);
      if (occurrences == 1 || occurrences == 2) && !IsGreat(c) {
        return i;
      }
      if c.rank.Value() > worst && ignore != Some(c.rank) {
        worst, r := c.rank.Value(), i;
      }
    }
  }

  // ---------------------------------------------------------------------
  // get_worst_combinaison_of_cards_index
  // ---------------------------------------------------------------------

  /** How many cards have rank value v. */
  function CountValue(cards: seq<Card>, v: int): (n: nat)
    ensures n <= |cards|
  {
    if cards == [] then 0
    else CountValue(cards[..|cards| - 1], v) + (if cards[|cards| - 1].rank.Value() == v then 1 else 0)
  }

  /** The points the first n cards of value v add up to. */
  function ValueScoreUpTo(cards: seq<Card>, n: nat, v: int): int
    requires n <= |cards|
  {
    if n == 0 then 0
    else ValueScoreUpTo(cards, n - 1, v) + (if cards[n - 1].rank.Value() == v then v else 0)
  }

  /** The points the cards of value v add up to. */
  function ValueScore(cards: seq<Card>, v: int): int
  {
    ValueScoreUpTo(cards, |cards|, v)
  }

  /** The points of value v are v times the number of cards of that value. */
  lemma ValueScoreCounts(cards: seq<Card>, v: int)
    ensures ValueScore(cards, v) == v * CountValue(cards, v)
  {
    PrefixScoreCounts(cards, |cards|, v);
    assert cards[..|cards|] == cards;
  }

  lemma {:induction false} PrefixScoreCounts(cards: seq<Card>, n: nat, v: int)
    requires n <= |cards|
    ensures ValueScoreUpTo(cards, n, v) == v * CountValue(cards[..n], v)
  {
    if n > 0 {
      PrefixScoreCounts(cards, n - 1, v);
      assert cards[..n][..n - 1] == cards[..n - 1];
      var c := CountValue(cards[..n - 1], v);
      var hit := cards[n - 1].rank.Value() == v;
      assert CountValue(cards[..n], v) == c + (if hit then 1 else 0);
      ScaleStep(v, c, hit);
    }
  }

  lemma ScaleStep(v: int, c: int, hit: bool)
    ensures v * (c + (if hit then 1 else 0)) == v * c + (if hit then v else 0)
  {
  }

  /** The points the cards of position j's rank add up to. */
  function Score(cards: seq<Card>, j: nat): int
    requires j < |cards|
  {
    ValueScore(cards, cards[j].rank.Value())
  }

  /** Position m has the highest score and every earlier position a lower one. */
  predicate IsFirstTopScore(cards: seq<Card>, m: nat)
  {
    m < |cards|
    && (forall j :: 0 <= j < |cards| ==> Score(cards, j) <= Score(cards, m))
    && (forall j :: 0 <= j < m ==> Score(cards, j) < Score(cards, m))
  }

  function WorstFrom(cards: seq<Card>, i: nat, best: nat): (r: nat)
    requires best < i <= |cards|
    ensures r < |cards|
    decreases |cards| - i
  {
    if i == |cards| then best
    else if Score(cards, i) > Score(cards, best) then WorstFrom(cards, i + 1, i)
    else WorstFrom(cards, i + 1, best)
  }

  /** The position `get_worst_combinaison_of_cards_index` picks, defined as
      the first position of a top score. */
  function WorstCombinationIndex(cards: seq<Card>): (r: nat)
    requires |cards| >= 1
    ensures r < |cards|
  {
    WorstFrom(cards, 1, 0)
  }

  lemma {:induction false} WorstFromMeaning(cards: seq<Card>, i: nat, best: nat)
    requires TopSoFar(cards, i, best)
    ensures IsFirstTopScore(cards, WorstFrom(cards, i, best))
    decreases |cards| - i
  {
    if i == |cards| {
      TopAtEnd(cards, best);
    } else {
      var b := WorstStep(cards, i, best);
      WorstFromMeaning(cards, i + 1, b);
      TopCarries(cards, i, best, b);
    }
  }

  /** After the last position the scan's top score is the first top score. */
  lemma TopAtEnd(cards: seq<Card>, best: nat)
    requires TopSoFar(cards, |cards|, best)
    ensures IsFirstTopScore(cards, WorstFrom(cards, |cards|, best))
  {
    assert WorstFrom(cards, |cards|, best) == best;
  }

  /** The scan from i ends where the scan from the next state ends. */
  lemma TopCarries(cards: seq<Card>, i: nat, best: nat, b: nat)
    requires best < i < |cards| && b < i + 1
    requires WorstFrom(cards, i, best) == WorstFrom(cards, i + 1, b)
    requires IsFirstTopScore(cards, WorstFrom(cards, i + 1, b))
    ensures IsFirstTopScore(cards, WorstFrom(cards, i, best))
  {
  }

  /** The state of the scan before position i: `best` is the first top
      score of the positions before i. */
  predicate TopSoFar(cards: seq<Card>, i: nat, best: nat)
  {
    best < i <= |cards|
    && (forall j :: 0 <= j < i ==> Score(cards, j) <= Score(cards, best))
    && (forall j :: 0 <= j < best ==> Score(cards, j) < Score(cards, best))
  }

  /** One step of the scan: it goes on from position i + 1 with the top
      score kept or replaced by the one at i. */
  lemma WorstStep(cards: seq<Card>, i: nat, best: nat) returns (b: nat)
    requires TopSoFar(cards, i, best) && i < |cards|
    ensures TopSoFar(cards, i + 1, b)
    ensures WorstFrom(cards, i, best) == WorstFrom(cards, i + 1, b)
  {
    if Score(cards, i) > Score(cards, best) {
      b := i;
    } else {
      b := best;
    }
  }


  /** The worst combination is the first position whose rank adds up to the
      most points. */
  lemma WorstCombinationIndexMeaning(cards: seq<Card>)
    requires |cards| >= 1
    ensures IsFirstTopScore(cards, WorstCombinationIndex(cards))
  {
    WorstFromMeaning(cards, 1, 0);
  }

  /** Only one position is the first of a top score. */
  lemma FirstTopScoreUnique(cards: seq<Card>, a: nat, b: nat)
    requires IsFirstTopScore(cards, a) && IsFirstTopScore(cards, b)
    ensures a == b
  {
    assert Score(cards, a) <= Score(cards, b) && Score(cards, b) <= Score(cards, a);
  }




  /** The three steps of `get_worst_combinaison_of_cards_index`: add up the
      points per rank value in a dictionary that remembers the order in which
      values first appear, take the first value of highest total in that
      order, then the first position of that value. */
  method GetWorstCombinationIndex(cards: seq<Card>) returns (idx: nat)
    requires |cards| >= 1
    ensures idx == WorstCombinationIndex(cards)
  {
    var sums, keys, firsts := SumPerValue(cards);
    var m := FirstHighestTotal(sums, keys);
    var maxValue := keys[m];

    idx := 0;
    while cards[idx].rank.Value() != maxValue
      invariant idx <= firsts[m]
      decreases firsts[m] - idx
    {
      idx := idx + 1;
    }

    forall j | 0 <= j < |cards|
      ensures Score(cards, j) <= Score(cards, idx)
    {
      var k' :| 0 <= k' < |keys| && keys[k'] == cards[j].rank.Value();
    }
    forall j | 0 <= j < idx
      ensures Score(cards, j) < Score(cards, idx)
    {
      var k' :| 0 <= k' < |keys| && keys[k'] == cards[j].rank.Value();
      assert firsts[k'] <= j;
      assert k' < m;
    }
    WorstCombinationIndexMeaning(cards);
    FirstTopScoreUnique(cards, idx, WorstCombinationIndex(cards));
  }

  /** The totals SumPerValue computes: `keys` lists the keys of `sums`,
      every rank value of `cards` is a key, and each maps to the points of
      all the cards of that value. */
  ghost predicate TotalsPerValue(cards: seq<Card>, sums: map<int, int>, keys: seq<int>)
  {
    |keys| > 0
    && (forall v :: v in sums <==> v in keys)
    && (forall j :: 0 <= j < |cards| ==> cards[j].rank.Value() in sums)
    && (forall v :: v in sums ==> sums[v] == ValueScore(cards, v))
  }

  /** The insertion order of the dictionary: `firsts[k]` is the first
      position of `keys[k]`, and the keys come in the order they are first
      met. */
  ghost predicate FirstMet(cards: seq<Card>, keys: seq<int>, firsts: seq<nat>)
  {
    |firsts| == |keys|
    && (forall k :: 0 <= k < |keys| ==> firsts[k] < |cards| && cards[firsts[k]].rank.Value() == keys[k])
    && (forall k, k' :: 0 <= k < k' < |keys| ==> firsts[k] < firsts[k'])
    && (forall k :: 0 <= k < |keys| ==>
          forall j :: 0 <= j < firsts[k] ==> cards[j].rank.Value() != keys[k])
  }


  /** The first loop of `get_worst_combinaison_of_cards_index`: the points
      per rank value, in a dictionary whose keys `keys` lists in the order
      they were first met; `firsts` gives where each key was first met. */
  method SumPerValue(cards: seq<Card>) returns (sums: map<int, int>, keys: seq<int>, ghost firsts: seq<nat>)
    requires |cards| >= 1
    ensures TotalsPerValue(cards, sums, keys)
    ensures FirstMet(cards, keys, firsts)
  {
    sums, keys, firsts := map[], [], [];
    TallyStart(cards);
    for i := 0 to |cards|
      invariant Tally(cards, i, sums, keys, firsts)
    {
      var v := cards[i].rank.Value();
      if v !in sums {
        // defaultdict(int): a missing key reads as 0, so its sum starts at v
        TallyAdd(cards, i, sums, keys, firsts);
        keys, firsts := keys + [v], firsts + [i];
        sums := sums[v := v];
      } else {
        TallyKeep(cards, i, sums, keys, firsts);
        sums := sums[v := sums[v] + v];
      }
    }
    TallyDone(cards, sums, keys, firsts);
  }

  /** The invariant after the last card gives the contract of SumPerValue. */
  lemma TallyDone(cards: seq<Card>, sums: map<int, int>, keys: seq<int>, firsts: seq<nat>)
    requires |cards| >= 1 && Tally(cards, |cards|, sums, keys, firsts)
    ensures TotalsPerValue(cards, sums, keys)
    ensures FirstMet(cards, keys, firsts)
  {
  }

  /** The loop invariant of SumPerValue after the first i cards. */
  ghost predicate Tally(cards: seq<Card>, i: nat, sums: map<int, int>, keys: seq<int>, firsts: seq<nat>)
  {
    i <= |cards|
    && (i > 0 ==> |keys| > 0)
    && KeysRecorded(cards, i, keys, firsts)
    && (forall v :: v in sums <==> v in keys)
    && SumsRecorded(cards, i, sums)
  }

  lemma TallyStart(cards: seq<Card>)
    ensures Tally(cards, 0, map[], [], [])
  {
  }

  /** A pass of the loop of SumPerValue over a value met for the first time. */
  lemma TallyAdd(cards: seq<Card>, i: nat, sums: map<int, int>, keys: seq<int>, firsts: seq<nat>)
    requires i < |cards| && Tally(cards, i, sums, keys, firsts)
    requires cards[i].rank.Value() !in sums
    ensures var v := cards[i].rank.Value();
            Tally(cards, i + 1, sums[v := v], keys + [v], firsts + [i])
  {
    var v := cards[i].rank.Value();
    assert v !in keys;
    KeysExtend(cards, i, keys, firsts);
    SumsAddKey(cards, i, sums, v);
    SumsStep(cards, i, sums[v := 0]);
    assert sums[v := 0][v := 0 + v] == sums[v := v];
  }

  /** A pass of the loop of SumPerValue over a value already met. */
  lemma TallyKeep(cards: seq<Card>, i: nat, sums: map<int, int>, keys: seq<int>, firsts: seq<nat>)
    requires i < |cards| && Tally(cards, i, sums, keys, firsts)
    requires cards[i].rank.Value() in sums
    ensures var v := cards[i].rank.Value();
            Tally(cards, i + 1, sums[v := sums[v] + v], keys, firsts)
  {
    KeysKeep(cards, i, keys, firsts);
    SumsStep(cards, i, sums);
  }

  /** `keys` lists the values met before position i, in the order they were
      first met, and `firsts` where each was first met. */
  predicate KeysRecorded(cards: seq<Card>, i: nat, keys: seq<int>, firsts: seq<nat>)
  {
    |firsts| == |keys|
    && (forall k :: 0 <= k < |keys| ==> firsts[k] < i && firsts[k] < |cards| && cards[firsts[k]].rank.Value() == keys[k])
    && (forall k, k' :: 0 <= k < k' < |keys| ==> firsts[k] < firsts[k'])
    && (forall k :: 0 <= k < |keys| ==> forall j :: 0 <= j < firsts[k] ==> cards[j].rank.Value() != keys[k])
    && (forall j :: 0 <= j < i && j < |cards| ==> cards[j].rank.Value() in keys)
  }

  lemma KeysExtend(cards: seq<Card>, i: nat, keys: seq<int>, firsts: seq<nat>)
    requires i < |cards| && KeysRecorded(cards, i, keys, firsts)
    requires forall j :: 0 <= j < i ==> cards[j].rank.Value() != cards[i].rank.Value()
    ensures KeysRecorded(cards, i + 1, keys + [cards[i].rank.Value()], firsts + [i])
  {
  }

  lemma KeysKeep(cards: seq<Card>, i: nat, keys: seq<int>, firsts: seq<nat>)
    requires i < |cards| && KeysRecorded(cards, i, keys, firsts)
    requires cards[i].rank.Value() in keys
    ensures KeysRecorded(cards, i + 1, keys, firsts)
  {
  }

  /** Every value in `sums` maps to the points of that value in the first
      i cards. */
  predicate SumsRecorded(cards: seq<Card>, i: nat, sums: map<int, int>)
    requires i <= |cards|
  {
    forall v :: v in sums ==> sums[v] == ValueScoreUpTo(cards, i, v)
  }

  /** A value not met before position i enters the dictionary at 0. */
  lemma SumsAddKey(cards: seq<Card>, i: nat, sums: map<int, int>, v: int)
    requires i <= |cards| && SumsRecorded(cards, i, sums)
    requires forall j :: 0 <= j < i ==> cards[j].rank.Value() != v
    ensures SumsRecorded(cards, i, sums[v := 0])
  {
    NoValueBefore(cards, i, v);
  }

  lemma SumsStep(cards: seq<Card>, i: nat, sums: map<int, int>)
    requires i < |cards| && SumsRecorded(cards, i, sums)
    requires cards[i].rank.Value() in sums
    ensures SumsRecorded(cards, i + 1, sums[cards[i].rank.Value() := sums[cards[i].rank.Value()] + cards[i].rank.Value()])
  {
  }

  /** `max(card_values.items(), key=...)`: the position in `keys` of the
      first key, in insertion order, of highest total. */
  method FirstHighestTotal(sums: map<int, int>, keys: seq<int>) returns (m: nat)
    requires |keys| > 0 && forall k :: 0 <= k < |keys| ==> keys[k] in sums
    ensures m < |keys|
    ensures forall k :: 0 <= k < |keys| ==> sums[keys[k]] <= sums[keys[m]]
    ensures forall k :: 0 <= k < m ==> sums[keys[k]] < sums[keys[m]]
  {
    m := 0;
    for k := 1 to |keys|
      invariant m < |keys|
      invariant forall k' :: 0 <= k' < k ==> sums[keys[k']] <= sums[keys[m]]
      invariant forall k' :: 0 <= k' < m ==> sums[keys[k']] < sums[keys[m]]
    {
      if sums[keys[k]] > sums[keys[m]] {
        m := k;
      }
    }
  }

  /** A value seen nowhere before position i has no points yet. */
  lemma {:induction false} NoValueBefore(cards: seq<Card>, i: nat, v: int)
    requires i <= |cards|
    requires forall j :: 0 <= j < i ==> cards[j].rank.Value() != v
    ensures ValueScoreUpTo(cards, i, v) == 0
  {
    if i > 0 {
      NoValueBefore(cards, i - 1, v);
    }
  }

  // ---------------------------------------------------------------------
  // The decision ladder
  // ---------------------------------------------------------------------

  /** `AIPlayer.play` (kobo_ai.py:505-561) as a decision. `drawn` is the
      card popped from the deck, `hand` the AI's cards, `humanKobo` the
      human's Kobo flag, and `deck` what is left to draw. Indices into
      `Known(hand)` are returned as they are, as the source passes them on
      to the substitution that indexes the whole hand. Every substitution
      names a hand position except the `-1` of the Kobo rule; a drawn Queen
      is declined unless that rule fires first; and Kobo is announced only
      once every card of the hand is discovered. */
  function Decide(drawn: Card, hand: seq<Card>, humanKobo: bool, deck: seq<Card>): (ch: Choice)
    ensures ch.move.Substitute? ==> -1 <= ch.move.index < |hand|
    ensures ch.move.Substitute? && ch.move.index == -1 ==>
              humanKobo && drawn.rank != Jack && FirstCardIndex(Known(hand), Jack) == -1
    ensures drawn.rank == Queen ==> !ch.announcesKobo && (ch.move == Decline || ch.move == Substitute(-1))
    ensures ch.announcesKobo ==> forall k :: 0 <= k < |hand| ==> hand[k].discovered
  {
    var known := Known(hand);
    var hiddenIdx := HiddenCardIndex(hand);
    if humanKobo && drawn.rank == Jack then Choice(Decline, false)
    // the source tests for "no Jack found" where it comments "found a jack"
    else if humanKobo && FirstCardIndex(known, Jack) == -1 then Choice(Substitute(-1), false)
    else if drawn.rank == Queen then Choice(Decline, false)
    else if FirstCardIndex(known, Queen) != -1 && hiddenIdx != -1 then
      Choice(Substitute(FirstCardIndex(known, Queen)), false)
    else if hiddenIdx != -1 then Choice(Substitute(hiddenIdx), false)
    else LateChoice(drawn, known, |HiddenIndices(hand)| >= 1, deck)
  }

  /** The rules of the ladder once no card is hidden (kobo_ai.py:534-561):
      the Kobo rule when the best hit is a great card, then declining a
      drawn card whose rank is already held, then the best hit itself. A
      position equal to `|known|` designates the drawn card and means
      declining, so a substitution always names a known card. */
  function LateChoice(drawn: Card, known: seq<Card>, hasHidden: bool, deck: seq<Card>): (ch: Choice)
    ensures ch.move.Substitute? ==> 0 <= ch.move.index < |known|
    ensures ch.announcesKobo <==> IsGreat((known + [drawn])[BestHitIndex(known + [drawn], hasHidden, deck, None)])
  {
    var withDrawn := known + [drawn];
    var best := BestHitIndex(withDrawn, hasHidden, deck, None);
    if IsGreat(withDrawn[best]) then
      var worst := WorstCombinationIndex(withDrawn);
      Choice(if worst == |withDrawn| - 1 then Decline else Substitute(worst), true)
    else if FirstCardIndex(known, drawn.rank) != -1 && !IsGreat(drawn) then Choice(Decline, false)
    else Choice(if best == |withDrawn| - 1 then Decline else Substitute(best), false)
  }

  /** Without a Kobo declaration by the human, a drawn Queen is declined. */
  lemma DrawnQueenIsDeclined(drawn: Card, hand: seq<Card>, deck: seq<Card>)
    requires drawn.rank == Queen
    ensures Decide(drawn, hand, false, deck) == Choice(Decline, false)
  {
  }

  /** Without a Kobo declaration, while the hand has a hidden card and the
      drawn card is not a Queen, the AI substitutes: the first known Queen's
      position among the known cards if it knows one, else the first hidden
      position of the hand. */
  lemma HiddenCardMeansSubstitute(drawn: Card, hand: seq<Card>, deck: seq<Card>)
    requires drawn.rank != Queen
    requires exists k :: 0 <= k < |hand| && !hand[k].discovered
    ensures var q := FirstCardIndex(Known(hand), Queen);
            Decide(drawn, hand, false, deck)
            == Choice(Substitute(if q != -1 then q else FirstHidden(hand)), false)
    ensures Decide(drawn, hand, false, deck).move.Substitute?
    ensures 0 <= Decide(drawn, hand, false, deck).move.index < |hand|
  {
    var q := FirstCardIndex(Known(hand), Queen);
    assert HiddenCardIndex(hand) != -1;
    assert q < |Known(hand)| <= |hand|;
  }

  /** The Queen rule's position counts known cards only: with a hidden card
      in front of a known Queen, the card replaced is the hidden one. */
  lemma QueenRuleReplacesHiddenCard()
    ensures var hand := [Card(Five, Club, false), Card(Queen, Heart, true)];
            Decide(Card(Seven, Spade, false), hand, false, []) == Choice(Substitute(0), false)
            && hand[0].rank != Queen
  {
    var hand := [Card(Five, Club, false), Card(Queen, Heart, true)];
    assert Known(hand) == [Card(Queen, Heart, true)] by {
      assert hand[..1] == [Card(Five, Club, false)];
      assert Known(hand[..1]) == [] by {
        assert hand[..1][..0] == [];
      }
    }
  }

  /** A hand whose every card is discovered has no hidden position. */
  lemma NoHiddenIndices(hand: seq<Card>)
    requires forall k :: 0 <= k < |hand| ==> hand[k].discovered
    ensures HiddenIndices(hand) == []
  {
    DiscoveredPlusHidden(hand);
    DiscoveredCountFull(hand);
  }

  /** With every card of the hand discovered and no Queen drawn, the AI
      announces Kobo exactly when the card it would keep best is great. */
  lemma KoboWhenBestHitGreat(drawn: Card, hand: seq<Card>, deck: seq<Card>)
    requires forall k :: 0 <= k < |hand| ==> hand[k].discovered
    requires drawn.rank != Queen
    ensures Decide(drawn, hand, false, deck).announcesKobo
        <==> IsGreat((hand + [drawn])[BestHitIndex(hand + [drawn], false, deck, None)])
  {
    DecideWithoutHidden(drawn, hand, deck);
  }

  /** Once every card is discovered and the drawn card is not a Queen, the
      ladder falls through to its late rules, over the whole hand. */
  lemma DecideWithoutHidden(drawn: Card, hand: seq<Card>, deck: seq<Card>)
    requires forall k :: 0 <= k < |hand| ==> hand[k].discovered
    requires drawn.rank != Queen
    ensures Decide(drawn, hand, false, deck) == LateChoice(drawn, hand, false, deck)
  {
    KnownOfDiscovered(hand);
    NoHiddenIndices(hand);
    assert HiddenCardIndex(hand) == -1;
  }

  /** When every card of the hand and the drawn card is great, no card is
      hidden and no Kobo was declared by the human, the AI announces Kobo. */
  lemma AllGreatAnnouncesKobo(drawn: Card, hand: seq<Card>, deck: seq<Card>)
    requires forall k :: 0 <= k < |hand| ==> hand[k].discovered
    requires AllGreat(hand + [drawn])
    ensures Decide(drawn, hand, false, deck).announcesKobo
  {
    var withDrawn := hand + [drawn];
    assert withDrawn[|hand|] == drawn;
    assert IsGreat(drawn);
    KoboWhenBestHitGreat(drawn, hand, deck);
    var best := BestHitIndex(withDrawn, false, deck, None);
    assert IsGreat(withDrawn[best]);
  }


  /** The Kobo announcement looks only at the best-hit card: here the AI
      holds a Five and still announces Kobo. */
  lemma KoboAnnouncedWithoutAllGreat()
    ensures var hand := [Card(Five, Club, true)];
            var drawn := Card(Ten, Heart, false);
            Decide(drawn, hand, false, []).announcesKobo && !AllGreat(hand + [drawn])
  {
    var hand := [Card(Five, Club, true)];
    var drawn := Card(Ten, Heart, false);
    var withDrawn := hand + [drawn];
    assert withDrawn[0].rank.Value() == 5 && withDrawn[1].rank.Value() == 10;
    assert !QuickHit(withDrawn[1], false, []);
    assert BestHitFrom(withDrawn, 2, 10, 1, false, [], None) == 1;
    assert BestHitIndex(withDrawn, false, [], None) == 1;
    KoboWhenBestHitGreat(drawn, hand, []);
    assert !IsGreat(withDrawn[0]);
  }


  /** With a Kobo declared by the human and a known Jack, the Kobo rule is
      passed over: the choice is the one made without the declaration. */
  lemma KoboRuleSkippedWithKnownJack(drawn: Card, hand: seq<Card>, deck: seq<Card>)
    requires drawn.rank != Jack
    requires exists k :: 0 <= k < |Known(hand)| && Known(hand)[k].rank == Jack
    ensures Decide(drawn, hand, true, deck) == Decide(drawn, hand, false, deck)
  {
  }

  /** With a Kobo declared by the human and no known Jack, the AI asks to
      replace position -1. */
  lemma KoboRuleWithoutJack(drawn: Card, hand: seq<Card>, deck: seq<Card>)
    requires drawn.rank != Jack
    requires forall k :: 0 <= k < |Known(hand)| ==> Known(hand)[k].rank != Jack
    ensures Decide(drawn, hand, true, deck) == Choice(Substitute(-1), false)
  {
  }

  /** A drawn card whose rank the AI already holds, and that is not great, is
      declined when the Kobo rule does not fire. */
  lemma KnownRankIsDeclined(drawn: Card, hand: seq<Card>, deck: seq<Card>)
    requires drawn.rank != Queen && !IsGreat(drawn)
    requires forall k :: 0 <= k < |hand| ==> hand[k].discovered
    requires exists k :: 0 <= k < |hand| && hand[k].rank == drawn.rank
    requires !Decide(drawn, hand, false, deck).announcesKobo
    ensures Decide(drawn, hand, false, deck) == Choice(Decline, false)
  {
    KnownOfDiscovered(hand);
  }
}
