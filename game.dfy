/** The round controller of kobo_ai.py (class Game, lines 143-238): the deck
    and the discard pile, dealing, drawing, the opponent-side duplicate
    throw and the victory check. */
module Games {
  import opened Cards
  import opened Hands
  import opened Decks
  import opened Ai

  /** The ranks of a list of cards (`thrown_ranks`, kobo_ai.py:233). */
  function Ranks(cards: seq<Card>): (rs: seq<Rank>)
    ensures |rs| == |cards|
  {
    seq(|cards|, k requires 0 <= k < |cards| => cards[k].rank)
  }

  /** `list.remove(c)`: drop the first card game-equal to `c`, if any. A
      list without such a card is kept as it is. */
  function RemoveFirst(l: seq<Card>, c: Card): (t: seq<Card>)
    ensures (forall k :: 0 <= k < |l| ==> l[k].rank != c.rank) ==> t == l
    ensures multiset(t) <= multiset(l)
  {
    if l == [] then []
    else
      assert l == [l[0]] + l[1..];
      if GameEq(l[0], c) then l[1..]
      else [l[0]] + RemoveFirst(l[1..], c)
  }

  /** When a card of `c`'s rank is present, `remove` takes out exactly one card,
      and that card has `c`'s rank. */
  lemma {:induction false} RemoveFirstRemovesOne(l: seq<Card>, k: nat, c: Card) returns (x: Card)
    requires k < |l| && l[k].rank == c.rank
    ensures x.rank == c.rank
    ensures multiset(RemoveFirst(l, c)) + multiset{x} == multiset(l)
    ensures |RemoveFirst(l, c)| == |l| - 1
  {
    assert l == [l[0]] + l[1..];
    if GameEq(l[0], c) {
      x := l[0];
    } else {
      x := RemoveFirstRemovesOne(l[1..], k - 1, c);
    }
  }

  /** After-the-fact description of `_throw_duplicate_cards` on the other
      player's hand: cards are only taken out, and only cards of a thrown rank. */
  predicate OnlyRanksRemoved(before: seq<Card>, after: seq<Card>, ranks: seq<Rank>)
  {
    multiset(after) <= multiset(before)
    && forall c :: c in multiset(before) - multiset(after) ==> c.rank in ranks
  }

  /** The loop of `_throw_duplicate_cards` (kobo_ai.py:235-238): iterate over
      the hand by position while `remove` shortens it, so the card after each
      removal is skipped. What the loop still guarantees: it removes only
      cards of a thrown rank, and it removes something exactly when some card
      of the hand has a thrown rank. */
  method ThrowMatchingRanks(hand: seq<Card>, ranks: seq<Rank>) returns (kept: seq<Card>)
    ensures OnlyRanksRemoved(hand, kept, ranks)
    ensures |kept| < |hand| <==> exists k :: 0 <= k < |hand| && hand[k].rank in ranks
    ensures |kept| == |hand| ==> kept == hand
  {
    kept := hand;
    ghost var removed: seq<Card> := [];
    var k := 0;
    while k < |kept|
      invariant Throwing(hand, ranks, kept, removed, k)
      decreases |hand| - k
    {
      var c := kept[k];
      if c.rank in ranks {
        ghost var x := ThrowStep(hand, ranks, kept, removed, k);
        kept := RemoveFirst(kept, c);
        removed := removed + [x];
      } else {
        SkipStep(hand, ranks, kept, removed, k);
      }
      k := k + 1;
    }
    RemovedHaveThrownRanks(hand, kept, removed, ranks);
  }

  /** The loop invariant of ThrowMatchingRanks: `removed` holds the cards
      taken out so far, all of thrown ranks, and while nothing was taken out
      the positions passed hold no thrown rank. */
  ghost predicate Throwing(hand: seq<Card>, ranks: seq<Rank>, kept: seq<Card>, removed: seq<Card>, k: nat)
  {
    k <= |hand|
    && multiset(kept) + multiset(removed) == multiset(hand)
    && |kept| + |removed| == |hand|
    && (forall j :: 0 <= j < |removed| ==> removed[j].rank in ranks)
    && (|kept| == |hand| ==> kept == hand && forall j :: 0 <= j < k ==> hand[j].rank !in ranks)
  }

  /** A pass that removes a card of a thrown rank keeps the invariant. */
  lemma ThrowStep(hand: seq<Card>, ranks: seq<Rank>, kept: seq<Card>, removed: seq<Card>, k: nat) returns (x: Card)
    requires Throwing(hand, ranks, kept, removed, k)
    requires k < |kept| && kept[k].rank in ranks
    ensures Throwing(hand, ranks, RemoveFirst(kept, kept[k]), removed + [x], k + 1)
  {
    x := RemoveFirstRemovesOne(kept, k, kept[k]);
    assert multiset(removed + [x]) == multiset(removed) + multiset{x};
  }

  /** A pass over a card of another rank keeps the invariant. */
  lemma SkipStep(hand: seq<Card>, ranks: seq<Rank>, kept: seq<Card>, removed: seq<Card>, k: nat)
    requires Throwing(hand, ranks, kept, removed, k)
    requires k < |kept| && kept[k].rank !in ranks
    ensures Throwing(hand, ranks, kept, removed, k + 1)
  {
  }

  /** What the bookkeeping of ThrowMatchingRanks gives once the loop is done. */
  lemma RemovedHaveThrownRanks(hand: seq<Card>, kept: seq<Card>, removed: seq<Card>, ranks: seq<Rank>)
    requires multiset(kept) + multiset(removed) == multiset(hand)
    requires |kept| + |removed| == |hand|
    requires forall j :: 0 <= j < |removed| ==> removed[j].rank in ranks
    ensures OnlyRanksRemoved(hand, kept, ranks)
    ensures |kept| < |hand| ==> exists k :: 0 <= k < |hand| && hand[k].rank in ranks
  {
    assert multiset(hand) - multiset(kept) == multiset(removed);
    if |kept| < |hand| {
      assert removed[0] in multiset(hand);
      var j :| 0 <= j < |hand| && hand[j] == removed[0];
    }
  }

  /** The conditions under which the AI's chosen move runs as modelled: a
      substitution names a hand position and meets at most one duplicate; a
      decline meets at most one duplicate, and every Queen it throws finds a
      hidden card (or the drawn card is already discovered). While the
      human's Kobo flag is set, the move throws no Jack, since the Jack
      effect (kobo_ai.py:447-456) is not part of this model. */
  predicate AiMoveFits(drawn: Card, hand: seq<Card>, humanKobo: bool, deck: seq<Card>)
  {
    match Decide(drawn, hand, humanKobo, deck).move
    case Substitute(i) =>
      0 <= i < |hand| && |Duplicates(Placed(hand, i, drawn), hand[i].rank)| <= 1
      && !(humanKobo && hand[i].rank == Jack)
    case Decline =>
      |Duplicates(hand, drawn.rank)| <= 1
      && (drawn.discovered
          || QueenCount(Duplicates(hand, drawn.rank)) <= |HiddenIndices(RemoveDuplicates(hand, drawn.rank))|)
      && !(humanKobo && drawn.rank == Jack && Duplicates(hand, drawn.rank) != [])
  }

  /** The last n cards of a deck in the order repeated pops return them:
      the top card first. */
  function Popped(d: seq<Card>, n: nat): (t: seq<Card>)
    requires n <= |d|
    ensures |t| == n && forall k :: 0 <= k < n ==> t[k] == d[|d| - 1 - k]
  {
    if n == 0 then [] else Popped(d, n - 1) + [d[|d| - n]]
  }

  /** Where the two dealt hands come from in a 52-card deck: the AI's k-th
      card is the (k+1)-th from the top, the human's the (n+k+1)-th. */
  lemma DealtFromTop(d: seq<Card>, n: nat, k: nat)
    requires |d| == 52 && 2 * n <= 52 && k < n
    ensures Popped(d, n)[k] == d[51 - k]
    ensures Popped(d[..52 - n], n)[k] == d[51 - n - k]
  {
  }

  class Game {
    const nbCards: nat
    const player: Player
    const aiPlayer: Player
    var deck: seq<Card>
    var thrownDeck: seq<Card>

    /** A new round: both players are created, then `_init_game` builds,
        shuffles and deals. `order` is the shuffle's outcome. */
    constructor (nbCards: nat, order: seq<nat>)
      requires 2 * nbCards <= 52 && IsPermutation(order, 52)
      ensures this.nbCards == nbCards && fresh(player) && fresh(aiPlayer) && player != aiPlayer
      ensures deck == Shuffled(StandardDeck(), order)[..52 - 2 * nbCards]
      ensures thrownDeck == []
      ensures |aiPlayer.cards| == nbCards && |player.cards| == nbCards
      ensures forall k :: 0 <= k < nbCards ==>
                aiPlayer.cards[k] == Discover(Shuffled(StandardDeck(), order)[51 - k], k < 2)
      ensures forall k :: 0 <= k < nbCards ==>
                player.cards[k] == Discover(Shuffled(StandardDeck(), order)[51 - nbCards - k], k < 2)
      ensures player.victories == 0 && aiPlayer.victories == 0 && !player.isKobo && !aiPlayer.isKobo
    {
      this.nbCards := nbCards;
      aiPlayer := new Player();
      player := new Player();
      deck, thrownDeck := [], [];
      new;
      InitGame(order);
    }

    /** `pop_card`: the top (last) card of the deck; None stands for the
        process exit on an empty deck. */
    method PopCard() returns (c: Option<Card>)
      modifies this
      ensures old(deck) == [] ==> c == None && deck == []
      ensures old(deck) != [] ==> c == Some(old(deck)[|old(deck)| - 1]) && deck == old(deck)[..|old(deck)| - 1]
      ensures thrownDeck == old(thrownDeck)
    {
      if |deck| == 0 {
        return None;
      }
      c := Some(deck[|deck| - 1]);
      deck := deck[..|deck| - 1];
    }

    /** `_init_game`: build the deck, shuffle it, deal `nbCards` cards to the
        AI and then `nbCards` to the human, one pop at a time. */
    method InitGame(order: seq<nat>)
      requires player != aiPlayer
      requires 2 * nbCards <= 52 && IsPermutation(order, 52)
      modifies this, player, aiPlayer
      ensures deck == Shuffled(StandardDeck(), order)[..52 - 2 * nbCards]
      ensures thrownDeck == []
      ensures |aiPlayer.cards| == nbCards && |player.cards| == nbCards
      ensures forall k :: 0 <= k < nbCards ==>
                aiPlayer.cards[k] == Discover(Shuffled(StandardDeck(), order)[51 - k], k < 2)
      ensures forall k :: 0 <= k < nbCards ==>
                player.cards[k] == Discover(Shuffled(StandardDeck(), order)[51 - nbCards - k], k < 2)
      ensures player.victories == old(player.victories) && aiPlayer.victories == old(aiPlayer.victories)
      ensures player.isKobo == old(player.isKobo) && aiPlayer.isKobo == old(aiPlayer.isKobo)
    {
      thrownDeck := [];
      var built := BuildDeck();
      deck := Shuffled(built, order);
      ShuffledDeckWellFormed(order);
      DealFromDeck();
    }

    /** The dealing part of `_init_game` from a full deck of hidden cards:
        the AI's hand, then the human's, each then set with its first two
        cards face up. */
    method DealFromDeck()
      requires player != aiPlayer
      requires |deck| == 52 && 2 * nbCards <= 52
      requires forall k :: 0 <= k < 52 ==> !deck[k].discovered
      modifies this, player, aiPlayer
      ensures deck == old(deck)[..52 - 2 * nbCards]
      ensures thrownDeck == old(thrownDeck)
      ensures |aiPlayer.cards| == nbCards && |player.cards| == nbCards
      ensures forall k :: 0 <= k < nbCards ==> aiPlayer.cards[k] == Discover(old(deck)[51 - k], k < 2)
      ensures forall k :: 0 <= k < nbCards ==> player.cards[k] == Discover(old(deck)[51 - nbCards - k], k < 2)
      ensures player.victories == old(player.victories) && aiPlayer.victories == old(aiPlayer.victories)
      ensures player.isKobo == old(player.isKobo) && aiPlayer.isKobo == old(aiPlayer.isKobo)
    {
      ghost var d := deck;
      var cards := DealTwoHands();
      aiPlayer.SetCards(cards[0]);
      ghost var aiCards := aiPlayer.cards;
      player.SetCards(cards[1]);
      assert aiPlayer.cards == aiCards;
      forall k | 0 <= k < nbCards
        ensures aiPlayer.cards[k] == Discover(d[51 - k], k < 2)
        ensures player.cards[k] == Discover(d[51 - nbCards - k], k < 2)
      {
        DealtFromTop(d, nbCards, k);
      }
    }

    /** The dealing loops of `_init_game`: one hand for the AI, then one for
        the human, each of `nbCards` pops. */
    method DealTwoHands() returns (cards: seq<seq<Card>>)
      requires 2 * nbCards <= |deck|
      modifies this
      ensures deck == old(deck)[..|old(deck)| - 2 * nbCards]
      ensures cards == [Popped(old(deck), nbCards), Popped(old(deck)[..|old(deck)| - nbCards], nbCards)]
      ensures thrownDeck == old(thrownDeck)
    {
      ghost var d := deck;
      cards := [];
      for p := 0 to 2
        invariant p == 0 ==> deck == d && cards == []
        invariant p == 1 ==> deck == d[..|d| - nbCards] && cards == [Popped(d, nbCards)]
        invariant p == 2 ==> deck == d[..|d| - 2 * nbCards]
                             && cards == [Popped(d, nbCards), Popped(d[..|d| - nbCards], nbCards)]
        invariant thrownDeck == old(thrownDeck)
      {
        var tmp := DealHand();
        cards := cards + [tmp];
      }
    }

    /** One pass of the inner dealing loop of `_init_game`: `nbCards` pops,
        kept in the order they were popped. */
    method DealHand() returns (tmp: seq<Card>)
      requires nbCards <= |deck|
      modifies this
      ensures tmp == Popped(old(deck), nbCards)
      ensures deck == old(deck)[..|old(deck)| - nbCards]
      ensures thrownDeck == old(thrownDeck)
    {
      tmp := [];
      for j := 0 to nbCards
        invariant tmp == Popped(old(deck), j)
        invariant deck == old(deck)[..|old(deck)| - j]
        invariant thrownDeck == old(thrownDeck)
      {
        var c := PopCard();
        tmp := tmp + [c.value];
      }
    }

    /** `nb_occurences_in_deck`: how many cards of rank `r` are left to draw. */
    function OccurrencesInDeck(r: Rank): (n: nat)
      reads this
      ensures n <= |deck|
      ensures n == 0 <==> forall k :: 0 <= k < |deck| ==> deck[k].rank != r
    {
      CountRank(deck, r)
    }

    /** `_throw_duplicate_cards`: after a move, the player who did not move
        loses cards whose rank is among the thrown ranks; the mover's hand is
        untouched. */
    method ThrowDuplicateCards(thrown: seq<Card>, playerTurn: bool)
      requires player != aiPlayer
      modifies player, aiPlayer
      ensures playerTurn ==> player.cards == old(player.cards)
                             && OnlyRanksRemoved(old(aiPlayer.cards), aiPlayer.cards, Ranks(thrown))
      ensures !playerTurn ==> aiPlayer.cards == old(aiPlayer.cards)
                              && OnlyRanksRemoved(old(player.cards), player.cards, Ranks(thrown))
      ensures player.victories == old(player.victories) && aiPlayer.victories == old(aiPlayer.victories)
      ensures player.isKobo == old(player.isKobo) && aiPlayer.isKobo == old(aiPlayer.isKobo)
    {
      var thrownRanks := Ranks(thrown);
      var other := if playerTurn then aiPlayer else player;
      var kept := ThrowMatchingRanks(other.cards, thrownRanks);
      other.cards := kept;
    }

    /** `_check_victory`: the round is over when a hand is empty; the human's
        hand is looked at first, and only the owner of the empty hand scores. */
    method CheckVictory() returns (over: bool)
      requires player != aiPlayer
      modifies player, aiPlayer
      ensures over <==> |player.cards| == 0 || |aiPlayer.cards| == 0
      ensures player.victories == old(player.victories) + (if |player.cards| == 0 then 1 else 0)
      ensures aiPlayer.victories
           == old(aiPlayer.victories) + (if |player.cards| != 0 && |aiPlayer.cards| == 0 then 1 else 0)
      ensures player.cards == old(player.cards) && aiPlayer.cards == old(aiPlayer.cards)
      ensures player.isKobo == old(player.isKobo) && aiPlayer.isKobo == old(aiPlayer.isKobo)
    {
      if |player.cards| == 0 {
        player.Win();
        return true;
      } else if |aiPlayer.cards| == 0 {
        aiPlayer.Win();
        return true;
      }
      return false;
    }

    /** `AIPlayer.play` (kobo_ai.py:505-561 with `throw_deck_card` and
        `throw_player_card`, lines 481-501): take the ladder's choice, replace
        or decline, apply one reveal per thrown Queen, and set the Kobo flag
        when the ladder announced it or every remaining card is great. */
    method AiPlay(drawn: Card) returns (thrown: seq<Card>)
      requires player != aiPlayer
      requires AiMoveFits(drawn, aiPlayer.cards, player.isKobo, deck)
      modifies aiPlayer
      ensures var hand, ch := old(aiPlayer.cards), Decide(drawn, old(aiPlayer.cards), player.isKobo, deck);
              match ch.move
              case Substitute(i) =>
                0 <= i < |hand|
                && thrown == [hand[i]] + Duplicates(Placed(hand, i, drawn), hand[i].rank)
                && aiPlayer.cards == RevealHidden(RemoveDuplicates(Placed(hand, i, drawn), hand[i].rank), QueenCount(thrown))
              case Decline =>
                thrown == Duplicates(hand, drawn.rank)
                && aiPlayer.cards == RevealHidden(RemoveDuplicates(hand, drawn.rank), QueenCount(thrown))
      ensures aiPlayer.isKobo
           == (old(aiPlayer.isKobo) || Decide(drawn, old(aiPlayer.cards), player.isKobo, deck).announcesKobo
               || AllGreat(aiPlayer.cards))
      ensures aiPlayer.victories == old(aiPlayer.victories)
    {
      var ch := Decide(drawn, aiPlayer.cards, player.isKobo, deck);
      if ch.announcesKobo {
        aiPlayer.isKobo := true;
      }
      match ch.move {
        case Substitute(i) =>
          thrown := aiPlayer.SubstituteCard(i, drawn);
          aiPlayer.AiQueenEffect(thrown, Discover(drawn, true));
        case Decline =>
          thrown := aiPlayer.DoNotSubstituteCard(drawn);
          aiPlayer.AiQueenEffect(thrown, drawn);
      }
      if AllGreat(aiPlayer.cards) {
        aiPlayer.isKobo := true;
      }
    }

    /** The end of one turn of `launch` (kobo_ai.py:174-175, 183-185): the
        other player throws its duplicates, the thrown cards go to the
        discard pile, the turn passes, and the victory check runs. */
    method EndTurn(thrown: seq<Card>, playerTurn: bool) returns (nextPlayerTurn: bool, over: bool)
      requires player != aiPlayer
      modifies this, player, aiPlayer
      ensures thrownDeck == old(thrownDeck) + thrown && deck == old(deck)
      ensures nextPlayerTurn == !playerTurn
      ensures playerTurn ==> player.cards == old(player.cards)
                             && OnlyRanksRemoved(old(aiPlayer.cards), aiPlayer.cards, Ranks(thrown))
      ensures !playerTurn ==> aiPlayer.cards == old(aiPlayer.cards)
                              && OnlyRanksRemoved(old(player.cards), player.cards, Ranks(thrown))
      ensures over <==> |player.cards| == 0 || |aiPlayer.cards| == 0
      ensures player.victories == old(player.victories) + (if |player.cards| == 0 then 1 else 0)
      ensures aiPlayer.victories
           == old(aiPlayer.victories) + (if |player.cards| != 0 && |aiPlayer.cards| == 0 then 1 else 0)
    {
      ThrowDuplicateCards(thrown, playerTurn);
      thrownDeck := thrownDeck + thrown;
      nextPlayerTurn := !playerTurn;
      over := CheckVictory();
    }
  }
}
