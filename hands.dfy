/** A player's hand and the per-move hand operations of PlayerI
    (kobo_ai.py, lines 242-318): substitution, decline, and the
    Queen and Jack effect primitives. */
module Hands {
  import opened Cards

  /** A turn's decision: replace the card at `index` by the drawn card, or
      keep the hand and only throw the drawn card's duplicates. */
  datatype Move = Substitute(index: int) | Decline

  // ---------------------------------------------------------------------
  // Specification functions over hands
  // ---------------------------------------------------------------------

  /** A card the duplicate scan picks up: discovered and of rank `r`. */
  predicate Matches(c: Card, r: Rank)
  {
    c.discovered && c.rank == r
  }

  /** The discovered cards of rank `r`, in hand order: what "remove all
      duplicates" throws away. */
  function Duplicates(s: seq<Card>, r: Rank): (d: seq<Card>)
    ensures |d| <= |s|
  {
    if s == [] then []
    else Duplicates(s[..|s| - 1], r) + (if Matches(s[|s| - 1], r) then [s[|s| - 1]] else [])
  }

  /** The hand left once every discovered card of rank `r` is removed;
      the other cards keep their order and flags. */
  function RemoveDuplicates(s: seq<Card>, r: Rank): (t: seq<Card>)
    ensures |t| <= |s|
  {
    if s == [] then []
    else RemoveDuplicates(s[..|s| - 1], r) + (if Matches(s[|s| - 1], r) then [] else [s[|s| - 1]])
  }

  /** Positions of the hidden cards, in increasing order (PlayerI._hidden_cards). */
  function HiddenIndices(s: seq<Card>): (h: seq<nat>)
    ensures forall j :: 0 <= j < |h| ==> h[j] < |s| && !s[h[j]].discovered
    ensures forall k :: 0 <= k < |s| && !s[k].discovered ==> k in h
    ensures forall j, j' :: 0 <= j < j' < |h| ==> h[j] < h[j']
  {
    if s == [] then []
    else HiddenIndices(s[..|s| - 1]) + (if s[|s| - 1].discovered then [] else [|s| - 1])
  }

  /** The discovered cards (the AI's `cards`, kobo_ai.py:506); KnownInOrder
      shows they are all of them, in hand order. */
  function Known(s: seq<Card>): (k: seq<Card>)
    ensures |k| <= |s|
    ensures forall j :: 0 <= j < |k| ==> k[j].discovered
  {
    if s == [] then []
    else Known(s[..|s| - 1]) + (if s[|s| - 1].discovered then [s[|s| - 1]] else [])
  }

  /** The number of discovered cards in a hand. */
  function DiscoveredCount(s: seq<Card>): nat
  {
    if s == [] then 0
    else DiscoveredCount(s[..|s| - 1]) + (if s[|s| - 1].discovered then 1 else 0)
  }

  /** The hand after the drawn card has been put, discovered, at `i`. */
  function Placed(s: seq<Card>, i: nat, drawn: Card): seq<Card>
    requires i < |s|
  {
    s[i := Discover(drawn, true)]
  }

  /** The position of the first hidden card, or |s| when every card is
      discovered. */
  function FirstHidden(s: seq<Card>): (i: nat)
    ensures i <= |s|
    ensures forall k :: 0 <= k < i ==> s[k].discovered
    ensures i < |s| ==> !s[i].discovered
  {
    if s == [] || !s[0].discovered then 0 else 1 + FirstHidden(s[1..])
  }

  /** The hand with its first hidden card turned face up, if it has one. */
  function RevealFirstHidden(s: seq<Card>): seq<Card>
  {
    var i := FirstHidden(s);
    if i == |s| then s else s[i := Discover(s[i], true)]
  }

  /** The hand with its first `q` hidden cards turned face up, one at a time. */
  function RevealHidden(s: seq<Card>, q: nat): seq<Card>
    decreases q
  {
    if q == 0 then s else RevealHidden(RevealFirstHidden(s), q - 1)
  }

  /** The number of Queens in a list of cards. */
  function QueenCount(s: seq<Card>): nat
  {
    if s == [] then 0
    else QueenCount(s[..|s| - 1]) + (if s[|s| - 1].rank == Queen then 1 else 0)
  }

  // ---------------------------------------------------------------------
  // Lemmas about the specification functions
  // ---------------------------------------------------------------------

  lemma DuplicatesAppend(s: seq<Card>, c: Card, r: Rank)
    ensures Duplicates(s + [c], r) == Duplicates(s, r) + (if Matches(c, r) then [c] else [])
    ensures RemoveDuplicates(s + [c], r) == RemoveDuplicates(s, r) + (if Matches(c, r) then [] else [c])
  {
    assert (s + [c])[..|s|] == s;
  }

  /** A prefix of a hand holds no more duplicates than the whole hand. */
  lemma {:induction false} DuplicatesPrefix(s: seq<Card>, i: nat, r: Rank)
    requires i <= |s|
    ensures |Duplicates(s[..i], r)| <= |Duplicates(s, r)|
  {
    if i < |s| {
      assert s[..i] == s[..|s| - 1][..i];
      DuplicatesPrefix(s[..|s| - 1], i, r);
    } else {
      assert s[..i] == s;
    }
  }

  /** Without a discovered card of rank `r`, removing the duplicates changes nothing. */
  lemma {:induction false} NoDuplicatesKeepsHand(s: seq<Card>, r: Rank)
    requires Duplicates(s, r) == []
    ensures RemoveDuplicates(s, r) == s
  {
    if s != [] {
      NoDuplicatesKeepsHand(s[..|s| - 1], r);
      assert s == s[..|s| - 1] + [s[|s| - 1]];
    }
  }

  /** The scan splits a hand into what it throws and what it keeps, losing
      and inventing no card: every thrown card is a discovered card of rank
      `r`, and no kept card is. */
  lemma {:induction false} DuplicatesPartition(s: seq<Card>, r: Rank)
    ensures multiset(Duplicates(s, r)) + multiset(RemoveDuplicates(s, r)) == multiset(s)
    ensures |Duplicates(s, r)| + |RemoveDuplicates(s, r)| == |s|
    ensures forall c :: c in Duplicates(s, r) ==> Matches(c, r)
    ensures forall c :: c in RemoveDuplicates(s, r) ==> !Matches(c, r)
  {
    if s != [] {
      var init, last := s[..|s| - 1], s[|s| - 1];
      DuplicatesPartition(init, r);
      assert s == init + [last];
      assert Duplicates(s, r) == Duplicates(init, r) + (if Matches(last, r) then [last] else []);
      assert RemoveDuplicates(s, r) == RemoveDuplicates(init, r) + (if Matches(last, r) then [] else [last]);
      PartitionStep(Duplicates(init, r), RemoveDuplicates(init, r), init, last, Matches(last, r));
    }
  }

  /** `t` lists cards of `s` at the increasing positions `idx`: `t` keeps
      the order the cards have in `s`. */
  predicate PickedInOrder(t: seq<Card>, s: seq<Card>, idx: seq<nat>)
  {
    |idx| == |t|
    && (forall j :: 0 <= j < |idx| ==> idx[j] < |s| && t[j] == s[idx[j]])
    && (forall j, j' :: 0 <= j < j' < |idx| ==> idx[j] < idx[j'])
  }

  /** Extending a hand by one card, and the picked list by that card or by
      nothing, keeps the picked list in order. */
  lemma PickedStep(t: seq<Card>, s: seq<Card>, idx: seq<nat>, c: Card, take: bool)
    returns (idx': seq<nat>)
    requires PickedInOrder(t, s, idx)
    ensures PickedInOrder(t + (if take then [c] else []), s + [c], idx')
    ensures forall k :: k in idx' <==> k in idx || (take && k == |s|)
  {
    if take {
      idx' := idx + [|s|];
    } else {
      idx' := idx;
      assert t + [] == t;
    }
  }

  /** The scan keeps the cards it does not throw in their hand order: they
      stand at increasing positions of the hand, and every card that does
      not match is among them. */
  lemma {:induction false} KeptInOrder(s: seq<Card>, r: Rank) returns (idx: seq<nat>)
    ensures PickedInOrder(RemoveDuplicates(s, r), s, idx)
    ensures forall k :: 0 <= k < |s| && !Matches(s[k], r) ==> k in idx
  {
    if s == [] {
      idx := [];
    } else {
      var init, last := s[..|s| - 1], s[|s| - 1];
      assert s == init + [last];
      var pre := KeptInOrder(init, r);
      idx := PickedStep(RemoveDuplicates(init, r), init, pre, last, !Matches(last, r));
    }
  }

  /** The scan throws the discovered cards of rank `r` in their hand order,
      every one of them. */
  lemma {:induction false} ThrownInOrder(s: seq<Card>, r: Rank) returns (idx: seq<nat>)
    ensures PickedInOrder(Duplicates(s, r), s, idx)
    ensures forall k :: 0 <= k < |s| && Matches(s[k], r) ==> k in idx
  {
    if s == [] {
      idx := [];
    } else {
      var init, last := s[..|s| - 1], s[|s| - 1];
      assert s == init + [last];
      var pre := ThrownInOrder(init, r);
      idx := PickedStep(Duplicates(init, r), init, pre, last, Matches(last, r));
    }
  }

  /** The known cards are the discovered cards of the hand, all of them, in
      hand order. */
  lemma {:induction false} KnownInOrder(s: seq<Card>) returns (idx: seq<nat>)
    ensures PickedInOrder(Known(s), s, idx)
    ensures forall k :: 0 <= k < |s| && s[k].discovered ==> k in idx
  {
    if s == [] {
      idx := [];
    } else {
      var init, last := s[..|s| - 1], s[|s| - 1];
      assert s == init + [last];
      var pre := KnownInOrder(init);
      idx := PickedStep(Known(init), init, pre, last, last.discovered);
    }
  }

  lemma PartitionStep(d: seq<Card>, t: seq<Card>, init: seq<Card>, last: Card, m: bool)
    requires multiset(d) + multiset(t) == multiset(init)
    requires |d| + |t| == |init|
    ensures multiset(d + (if m then [last] else [])) + multiset(t + (if m then [] else [last]))
         == multiset(init + [last])
    ensures |d + (if m then [last] else [])| + |t + (if m then [] else [last])| == |init + [last]|
  {
    assert multiset(init + [last]) == multiset(init) + multiset{last};
    if m {
      assert multiset(d + [last]) == multiset(d) + multiset{last};
      assert t + [] == t;
    } else {
      assert multiset(t + [last]) == multiset(t) + multiset{last};
      assert d + [] == d;
    }
  }


  /** With exactly one discovered card of rank `r`, that card alone is thrown
      and the others close up around its slot. */
  lemma {:induction false} SingleDuplicate(s: seq<Card>, r: Rank) returns (k: nat)
    requires |Duplicates(s, r)| == 1
    ensures k < |s| && Matches(s[k], r)
    ensures Duplicates(s, r) == [s[k]]
    ensures RemoveDuplicates(s, r) == s[..k] + s[k + 1..]
  {
    var init, last := s[..|s| - 1], s[|s| - 1];
    assert s == init + [last];
    DuplicatesAppend(init, last, r);
    if Matches(last, r) {
      NoDuplicatesKeepsHand(init, r);
      k := |s| - 1;
      assert s[..k] == init;
    } else {
      k := SingleDuplicate(init, r);
      SliceOfAppend(init, last, k);
    }
  }

  lemma SliceOfAppend<T>(init: seq<T>, last: T, k: nat)
    requires k < |init|
    ensures (init + [last])[k] == init[k]
    ensures (init + [last])[..k] == init[..k]
    ensures (init + [last])[k + 1..] == init[k + 1..] + [last]
  {
  }

  /** Substitution with no discovered match in the updated hand keeps the
      hand's length and leaves the drawn card, discovered, at `i`. */
  lemma SubstituteWithoutMatch(s: seq<Card>, i: nat, drawn: Card)
    requires i < |s|
    requires Duplicates(Placed(s, i, drawn), s[i].rank) == []
    ensures |RemoveDuplicates(Placed(s, i, drawn), s[i].rank)| == |s|
    ensures RemoveDuplicates(Placed(s, i, drawn), s[i].rank)[i] == Discover(drawn, true)
  {
    NoDuplicatesKeepsHand(Placed(s, i, drawn), s[i].rank);
  }

  /** Substitution with one discovered match throws that card too, and the
      hand shrinks by exactly one card. */
  lemma SubstituteWithOneMatch(s: seq<Card>, i: nat, drawn: Card)
    requires i < |s|
    requires |Duplicates(Placed(s, i, drawn), s[i].rank)| == 1
    ensures |RemoveDuplicates(Placed(s, i, drawn), s[i].rank)| == |s| - 1
    ensures Duplicates(Placed(s, i, drawn), s[i].rank)[0] in Placed(s, i, drawn)
    ensures Duplicates(Placed(s, i, drawn), s[i].rank)[0].rank == s[i].rank
  {
    var k := SingleDuplicate(Placed(s, i, drawn), s[i].rank);
  }

  /** The drawn card is marked discovered before the scan, so a drawn card of
      the replaced card's rank is itself thrown when no other discovered card
      of that rank is in the hand. */
  lemma {:induction false} DrawnCardOfSameRankIsThrown(s: seq<Card>, i: nat, drawn: Card)
    requires i < |s| && drawn.rank == s[i].rank
    requires forall k :: 0 <= k < |s| && k != i ==> !Matches(s[k], s[i].rank)
    ensures Duplicates(Placed(s, i, drawn), s[i].rank) == [Discover(drawn, true)]
    ensures RemoveDuplicates(Placed(s, i, drawn), s[i].rank) == s[..i] + s[i + 1..]
  {
    var r := s[i].rank;
    assert Placed(s, i, drawn) == s[..i] + [Discover(drawn, true)] + s[i + 1..];
    var front, back := s[..i], s[i + 1..];
    assert forall k :: 0 <= k < |front| ==> !Matches(front[k], r);
    assert forall k :: 0 <= k < |back| ==> !Matches(back[k], r) by {
      forall k | 0 <= k < |back|
        ensures !Matches(back[k], r)
      {
        assert back[k] == s[i + 1 + k];
      }
    }
    OnlyMiddleMatches(front, Discover(drawn, true), back, r);
  }

  /** Between two runs without a match, a single matching card is the only
      duplicate. */
  lemma OnlyMiddleMatches(a: seq<Card>, c: Card, b: seq<Card>, r: Rank)
    requires Matches(c, r)
    requires forall k :: 0 <= k < |a| ==> !Matches(a[k], r)
    requires forall k :: 0 <= k < |b| ==> !Matches(b[k], r)
    ensures Duplicates(a + [c] + b, r) == [c]
    ensures RemoveDuplicates(a + [c] + b, r) == a + b
  {
    NoMatchesNoDuplicates(a, r);
    NoMatchesNoDuplicates(b, r);
    NoDuplicatesKeepsHand(a, r);
    NoDuplicatesKeepsHand(b, r);
    var ac := a + [c];
    DuplicatesAppend(a, c, r);
    assert Duplicates(ac, r) == [c] && RemoveDuplicates(ac, r) == a;
    ThrownConcat(ac, b, r);
    KeptConcat(ac, b, r);
    assert Duplicates(ac, r) + Duplicates(b, r) == [c];
  }

  lemma {:induction false} NoMatchesNoDuplicates(s: seq<Card>, r: Rank)
    requires forall k :: 0 <= k < |s| ==> !Matches(s[k], r)
    ensures Duplicates(s, r) == []
  {
    if s != [] {
      NoMatchesNoDuplicates(s[..|s| - 1], r);
    }
  }

  lemma DuplicatesConcat(a: seq<Card>, b: seq<Card>, r: Rank)
    ensures Duplicates(a + b, r) == Duplicates(a, r) + Duplicates(b, r)
    ensures RemoveDuplicates(a + b, r) == RemoveDuplicates(a, r) + RemoveDuplicates(b, r)
  {
    ThrownConcat(a, b, r);
    KeptConcat(a, b, r);
  }

  lemma {:induction false} ThrownConcat(a: seq<Card>, b: seq<Card>, r: Rank)
    ensures Duplicates(a + b, r) == Duplicates(a, r) + Duplicates(b, r)
  {
    if b == [] {
      assert a + b == a;
    } else {
      var b', c := b[..|b| - 1], b[|b| - 1];
      assert a + b == (a + b') + [c];
      ThrownConcat(a, b', r);
      DuplicatesAppend(a + b', c, r);
      DuplicatesAppend(b', c, r);
    }
  }

  lemma {:induction false} KeptConcat(a: seq<Card>, b: seq<Card>, r: Rank)
    ensures RemoveDuplicates(a + b, r) == RemoveDuplicates(a, r) + RemoveDuplicates(b, r)
  {
    if b == [] {
      assert a + b == a;
    } else {
      var b', c := b[..|b| - 1], b[|b| - 1];
      assert a + b == (a + b') + [c];
      KeptConcat(a, b', r);
      DuplicatesAppend(a + b', c, r);
      DuplicatesAppend(b', c, r);
    }
  }

  /** Discovered and hidden cards together make up the hand. */
  lemma {:induction false} DiscoveredPlusHidden(s: seq<Card>)
    ensures DiscoveredCount(s) + |HiddenIndices(s)| == |s|
    ensures |Known(s)| == DiscoveredCount(s)
  {
    if s != [] {
      DiscoveredPlusHidden(s[..|s| - 1]);
    }
  }

  /** With no hidden card left, the discovered cards are the whole hand, so
      positions in the one are positions in the other. */
  lemma AllDiscoveredKnownIsHand(s: seq<Card>)
    requires HiddenIndices(s) == []
    ensures Known(s) == s
  {
    KnownOfDiscovered(s);
  }

  lemma {:induction false} KnownOfDiscovered(s: seq<Card>)
    requires forall k :: 0 <= k < |s| ==> s[k].discovered
    ensures Known(s) == s
  {
    if s != [] {
      KnownOfDiscovered(s[..|s| - 1]);
      assert s == s[..|s| - 1] + [s[|s| - 1]];
    }
  }

  /** Turning one card face up raises the discovered count by one if it was
      hidden and leaves it unchanged otherwise: it never drops. */
  lemma {:induction false} RevealCount(s: seq<Card>, i: nat)
    requires i < |s|
    ensures DiscoveredCount(s[i := Discover(s[i], true)])
         == DiscoveredCount(s) + (if s[i].discovered then 0 else 1)
  {
    var t := s[i := Discover(s[i], true)];
    if i < |s| - 1 {
      assert t[..|t| - 1] == s[..|s| - 1][i := Discover(s[i], true)];
      RevealCount(s[..|s| - 1], i);
    } else {
      assert t[..|t| - 1] == s[..|s| - 1];
    }
  }

  /** A hand is fully discovered exactly when its discovered count is its length. */
  lemma {:induction false} DiscoveredCountFull(s: seq<Card>)
    ensures DiscoveredCount(s) <= |s|
    ensures DiscoveredCount(s) == |s| <==> forall k :: 0 <= k < |s| ==> s[k].discovered
  {
    if s != [] {
      var init := s[..|s| - 1];
      DiscoveredCountFull(init);
      assert forall k :: 0 <= k < |init| ==> init[k] == s[k];
    }
  }

  /** Turning the first hidden card face up adds one discovered card, unless
      the hand is already fully discovered. */
  lemma RevealFirstHiddenCount(s: seq<Card>)
    ensures |RevealFirstHidden(s)| == |s|
    ensures DiscoveredCount(RevealFirstHidden(s))
         == if DiscoveredCount(s) == |s| then |s| else DiscoveredCount(s) + 1
  {
    DiscoveredCountFull(s);
    var i := FirstHidden(s);
    if i < |s| {
      RevealCount(s, i);
    }
  }

  /** Revealing `q` hidden cards one at a time discovers min(q, hidden) cards:
      the discovered count never drops and never passes the hand's length. */
  lemma {:induction false} RevealHiddenCount(s: seq<Card>, q: nat)
    decreases q
    ensures |RevealHidden(s, q)| == |s|
    ensures DiscoveredCount(RevealHidden(s, q))
         == if DiscoveredCount(s) + q <= |s| then DiscoveredCount(s) + q else |s|
  {
    DiscoveredCountFull(s);
    if q > 0 {
      var t := RevealFirstHidden(s);
      RevealFirstHiddenCount(s);
      RevealHiddenCount(t, q - 1);
    }
  }

  /** The face of a card: what identifies it physically, whatever its flag. */
  function Faces(s: seq<Card>): (f: multiset<(Rank, Suit)>)
    ensures |f| == |s|
  {
    if s == [] then multiset{}
    else Faces(s[..|s| - 1]) + multiset{(s[|s| - 1].rank, s[|s| - 1].suit)}
  }

  lemma {:induction false} FacesUpdate(s: seq<Card>, i: nat, c: Card)
    requires i < |s|
    ensures Faces(s[i := c]) == Faces(s) - multiset{(s[i].rank, s[i].suit)} + multiset{(c.rank, c.suit)}
  {
    if i < |s| - 1 {
      FacesUpdate(s[..|s| - 1], i, c);
      FacesInnerStep(s, i, c);
    } else {
      FacesLastStep(s, c);
    }
  }

  lemma FacesInnerStep(s: seq<Card>, i: nat, c: Card)
    requires i < |s| - 1
    requires Faces(s[..|s| - 1][i := c])
          == Faces(s[..|s| - 1]) - multiset{(s[i].rank, s[i].suit)} + multiset{(c.rank, c.suit)}
    ensures Faces(s[i := c]) == Faces(s) - multiset{(s[i].rank, s[i].suit)} + multiset{(c.rank, c.suit)}
  {
    var t, init, last := s[i := c], s[..|s| - 1], s[|s| - 1];
    assert t[..|t| - 1] == init[i := c] && t[|t| - 1] == last;
    FacesContains(init, i);
    MultisetSwap(Faces(init), (s[i].rank, s[i].suit), (c.rank, c.suit), (last.rank, last.suit));
  }

  lemma FacesLastStep(s: seq<Card>, c: Card)
    requires s != []
    ensures Faces(s[|s| - 1 := c])
         == Faces(s) - multiset{(s[|s| - 1].rank, s[|s| - 1].suit)} + multiset{(c.rank, c.suit)}
  {
    var t := s[|s| - 1 := c];
    assert t[..|t| - 1] == s[..|s| - 1];
  }

  /** Taking one element out and putting another in commutes with adding a
      third, provided the one taken out was there. */
  lemma MultisetSwap<T>(m: multiset<T>, x: T, y: T, z: T)
    requires x in m
    ensures m - multiset{x} + multiset{y} + multiset{z} == m + multiset{z} - multiset{x} + multiset{y}
  {
  }

  lemma {:induction false} FacesContains(s: seq<Card>, i: nat)
    requires i < |s|
    ensures (s[i].rank, s[i].suit) in Faces(s)
  {
    if i < |s| - 1 {
      FacesContains(s[..|s| - 1], i);
    }
  }

  /** A Jack swap moves cards between the two hands: together they hold the
      same physical cards before and after. */
  lemma JackSwapKeepsCards(mine: seq<Card>, other: seq<Card>, i: nat, j: nat)
    requires i < |mine| && j < |other|
    ensures Faces(mine[i := Discover(other[j], false)]) + Faces(other[j := Discover(mine[i], false)])
         == Faces(mine) + Faces(other)
  {
    FacesUpdate(mine, i, Discover(other[j], false));
    FacesUpdate(other, j, Discover(mine[i], false));
    FacesContains(mine, i);
    FacesContains(other, j);
  }

  // ---------------------------------------------------------------------
  // The duplicate scan as the source writes it
  // ---------------------------------------------------------------------

  /** The scan of `_substitute_card` and `_do_not_substitute_card`
      (kobo_ai.py:277-282, 287-292): walk the hand by index and pop every
      discovered card game-equal to `target` from a copy, at the index it had
      in the original. While at most one card matches, that index is still
      right, and the scan is exactly the filter. */
  method PopDuplicates(hand: seq<Card>, target: Card) returns (popped: seq<Card>, updated: seq<Card>)
    requires |Duplicates(hand, target.rank)| <= 1
    ensures popped == Duplicates(hand, target.rank)
    ensures updated == RemoveDuplicates(hand, target.rank)
  {
    var r := target.rank;
    popped, updated := [], hand;
    for i := 0 to |hand|
      invariant popped == Duplicates(hand[..i], r)
      invariant updated == RemoveDuplicates(hand[..i], r) + hand[i..]
    {
      if hand[i].discovered && GameEq(hand[i], target) {
        PopStep(hand, i, r, updated);
        popped := popped + [updated[i]];
        updated := updated[..i] + updated[i + 1..];
      } else {
        KeepStep(hand, i, r, updated);
      }
    }
    assert hand[..|hand|] == hand;
  }

  /** One step of the scan at the only match: the card at the scan position
      in the copy is the matching card, and popping it keeps the copy equal
      to the filtered prefix followed by the unscanned rest. */
  lemma PopStep(hand: seq<Card>, i: nat, r: Rank, updated: seq<Card>)
    requires i < |hand| && Matches(hand[i], r)
    requires |Duplicates(hand, r)| <= 1
    requires updated == RemoveDuplicates(hand[..i], r) + hand[i..]
    ensures i < |updated| && updated[i] == hand[i]
    ensures Duplicates(hand[..i + 1], r) == Duplicates(hand[..i], r) + [hand[i]]
    ensures updated[..i] + updated[i + 1..] == RemoveDuplicates(hand[..i + 1], r) + hand[i + 1..]
  {
    FirstMatch(hand, i, r);
    SliceAround(hand[..i], hand[i..]);
    assert hand[..i] + hand[i..][1..] == hand[..i] + hand[i + 1..];
  }

  /** At the only match, the prefix before it has nothing to remove. */
  lemma FirstMatch(hand: seq<Card>, i: nat, r: Rank)
    requires i < |hand| && Matches(hand[i], r)
    requires |Duplicates(hand, r)| <= 1
    ensures RemoveDuplicates(hand[..i], r) == hand[..i]
    ensures Duplicates(hand[..i + 1], r) == Duplicates(hand[..i], r) + [hand[i]]
    ensures RemoveDuplicates(hand[..i + 1], r) == hand[..i]
  {
    var pre := hand[..i];
    assert hand[..i + 1] == pre + [hand[i]];
    DuplicatesAppend(pre, hand[i], r);
    DuplicatesPrefix(hand, i + 1, r);
    NoDuplicatesKeepsHand(pre, r);
  }

  /** Taking out the element just after `pre` from `pre + rest`. */
  lemma SliceAround<T>(pre: seq<T>, rest: seq<T>)
    requires rest != []
    ensures (pre + rest)[|pre|] == rest[0]
    ensures (pre + rest)[..|pre|] + (pre + rest)[|pre| + 1..] == pre + rest[1..]
  {
    assert (pre + rest)[..|pre|] == pre;
    assert (pre + rest)[|pre| + 1..] == rest[1..];
  }

  /** One step of the scan past a card that does not match. */
  lemma KeepStep(hand: seq<Card>, i: nat, r: Rank, updated: seq<Card>)
    requires i < |hand| && !Matches(hand[i], r)
    requires updated == RemoveDuplicates(hand[..i], r) + hand[i..]
    ensures Duplicates(hand[..i + 1], r) == Duplicates(hand[..i], r)
    ensures updated == RemoveDuplicates(hand[..i + 1], r) + hand[i + 1..]
  {
    var pre := hand[..i];
    assert hand[..i + 1] == pre + [hand[i]];
    DuplicatesAppend(pre, hand[i], r);
    assert hand[i..] == [hand[i]] + hand[i + 1..];
  }

  /** The same scan on every input, with the stale index kept: None is the
      IndexError raised when the index runs past the shortened copy. */
  function StaleScan(hand: seq<Card>, target: Card, i: nat, updated: seq<Card>, popped: seq<Card>)
    : (r: Option<(seq<Card>, seq<Card>)>)
    ensures r.Some? ==> multiset(r.value.0) + multiset(r.value.1) == multiset(popped) + multiset(updated)
    ensures r.Some? ==> |r.value.1| <= |updated| && popped <= r.value.0
    decreases |hand| - i
  {
    if i >= |hand| then Some((popped, updated))
    else if hand[i].discovered && GameEq(hand[i], target) then
      if i < |updated| then
        PopKeepsCards(updated, i, popped);
        StaleScan(hand, target, i + 1, updated[..i] + updated[i + 1..], popped + [updated[i]])
      else None
    else StaleScan(hand, target, i + 1, updated, popped)
  }

  /** Popping slot i moves its card from the copy to the popped list. */
  lemma PopKeepsCards(updated: seq<Card>, i: nat, popped: seq<Card>)
    requires i < |updated|
    ensures multiset(popped + [updated[i]]) + multiset(updated[..i] + updated[i + 1..])
         == multiset(popped) + multiset(updated)
  {
    assert updated == updated[..i] + [updated[i]] + updated[i + 1..];
  }

  /** Two discovered Twos after the drawn Two is placed at 0 (hand 2C 2D 7H KS,
      first two discovered, drawn 2S): the second pop takes the Seven, which
      is thrown, while the Two of diamonds stays. */
  lemma StaleScanThrowsWrongCard()
    ensures var two, seven, king := Card(Two, Spade, true), Card(Seven, Heart, false), Card(King, Spade, false);
            var hand := [two, Card(Two, Diamond, true), seven, king];
            StaleScan(hand, Card(Two, Club, true), 0, hand, []) == Some(([two, seven], [Card(Two, Diamond, true), king]))
            && Duplicates(hand, Two) == [two, Card(Two, Diamond, true)]
  {
    var two, seven, king := Card(Two, Spade, true), Card(Seven, Heart, false), Card(King, Spade, false);
    var two' := Card(Two, Diamond, true);
    StaleScanOfTwos(two, two', seven, king);
    DuplicatesOfTwos(two, two', seven, king);
  }

  lemma StaleScanOfTwos(two: Card, two': Card, seven: Card, king: Card)
    requires two == Card(Two, Spade, true) && two' == Card(Two, Diamond, true)
    requires seven == Card(Seven, Heart, false) && king == Card(King, Spade, false)
    ensures StaleScan([two, two', seven, king], Card(Two, Club, true), 0, [two, two', seven, king], [])
         == Some(([two, seven], [two', king]))
  {
    var hand := [two, two', seven, king];
    var target := Card(Two, Club, true);
    var u1, u2 := [two', seven, king], [two', king];
    assert hand[..0] + hand[1..] == u1;
    assert u1[..1] + u1[2..] == u2;
    assert [] + [hand[0]] == [two];
    assert [two] + [u1[1]] == [two, seven];
    assert StaleScan(hand, target, 0, hand, []) == StaleScan(hand, target, 1, u1, [two]);
    assert StaleScan(hand, target, 1, u1, [two]) == StaleScan(hand, target, 2, u2, [two, seven]);
    assert StaleScan(hand, target, 2, u2, [two, seven]) == StaleScan(hand, target, 4, u2, [two, seven]);
  }

  lemma DuplicatesOfTwos(two: Card, two': Card, seven: Card, king: Card)
    requires two == Card(Two, Spade, true) && two' == Card(Two, Diamond, true)
    requires seven == Card(Seven, Heart, false) && king == Card(King, Spade, false)
    ensures Duplicates([two, two', seven, king], Two) == [two, two']
  {
    DuplicatesAppend([], two, Two);
    DuplicatesAppend([two], two', Two);
    DuplicatesAppend([two, two'], seven, Two);
    DuplicatesAppend([two, two', seven], king, Two);
    assert [] + [two] == [two];
    assert [two] + [two'] == [two, two'];
    assert [two, two'] + [seven] == [two, two', seven];
    assert [two, two', seven] + [king] == [two, two', seven, king];
  }

  /** Two discovered Sevens side by side at the end of the hand: the second
      pop indexes past the shortened copy (IndexError). */
  lemma StaleScanIndexError()
    ensures var hand := [Card(Seven, Club, true), Card(Seven, Diamond, true)];
            StaleScan(hand, Card(Seven, Heart, false), 0, hand, []) == None
  {
    var a, b := Card(Seven, Club, true), Card(Seven, Diamond, true);
    var target := Card(Seven, Heart, false);
    var hand := [a, b];
    assert hand[..0] + hand[1..] == [b];
    calc {
      StaleScan(hand, target, 0, hand, []);
      StaleScan(hand, target, 1, [b], [a]);
    }
  }

  // ---------------------------------------------------------------------
  // The player state (PlayerI)
  // ---------------------------------------------------------------------

  class Player {
    var cards: seq<Card>
    var victories: nat
    var isKobo: bool

    /** A player with no victories who has not declared Kobo; the hand is
        dealt later by SetCards. */
    constructor ()
      ensures cards == [] && victories == 0 && !isKobo
    {
      cards, victories, isKobo := [], 0, false;
    }

    /** Takes the dealt cards as the hand and turns the first two face up. */
    method SetCards(dealt: seq<Card>)
      modifies this
      ensures |cards| == |dealt|
      ensures forall k :: 0 <= k < |dealt| ==>
                cards[k] == if k < 2 then Discover(dealt[k], true) else dealt[k]
      ensures victories == old(victories) && isKobo == old(isKobo)
    {
      cards := dealt;
      var n := if |cards| < 2 then |cards| else 2;
      for k := 0 to n
        invariant victories == old(victories) && isKobo == old(isKobo)
        invariant |cards| == |dealt|
        invariant forall j :: 0 <= j < |dealt| ==>
                    cards[j] == if j < k then Discover(dealt[j], true) else dealt[j]
      {
        cards := cards[k := Discover(cards[k], true)];
      }
    }

    /** The hand size: its discovered cards and its hidden ones. */
    function NbCards(): (n: nat)
      reads this
      ensures n == DiscoveredCount(cards) + |HiddenIndices(cards)|
    {
      DiscoveredPlusHidden(cards);
      |cards|
    }

    /** The hidden positions of the hand, in increasing order. */
    function HiddenCards(): (h: seq<nat>)
      reads this
      ensures |h| == NbCards() - DiscoveredCount(cards)
      ensures forall j :: 0 <= j < |h| ==> h[j] < NbCards() && !cards[h[j]].discovered
      ensures forall k :: 0 <= k < NbCards() && !cards[k].discovered ==> k in h
    {
      HiddenIndices(cards)
    }

    method Win()
      modifies this
      ensures victories == old(victories) + 1
      ensures cards == old(cards) && isKobo == old(isKobo)
    {
      victories := victories + 1;
    }

    /** `_substitute_card`: the drawn card takes slot `index`, the card that
        was there is thrown first, then the scan throws every discovered card
        of the replaced card's rank, the drawn card included. */
    method SubstituteCard(index: nat, deckCard: Card) returns (thrown: seq<Card>)
      requires index < |cards|
      requires |Duplicates(Placed(cards, index, deckCard), cards[index].rank)| <= 1
      modifies this
      ensures thrown == [old(cards)[index]] + Duplicates(Placed(old(cards), index, deckCard), old(cards)[index].rank)
      ensures cards == RemoveDuplicates(Placed(old(cards), index, deckCard), old(cards)[index].rank)
      ensures victories == old(victories) && isKobo == old(isKobo)
    {
      var selected := cards[index];
      var drawn := Discover(deckCard, true);
      thrown := [cards[index]];
      cards := cards[..index] + cards[index + 1..];
      cards := cards[..index] + [drawn] + cards[index..];
      assert cards == Placed(old(cards), index, deckCard);
      var popped, updated := PopDuplicates(cards, selected);
      thrown := thrown + popped;
      cards := updated;
    }

    /** `_do_not_substitute_card`: the drawn card is declined and never enters
        the hand nor the returned list; every discovered card of its rank is
        thrown. */
    method DoNotSubstituteCard(deckCard: Card) returns (thrown: seq<Card>)
      requires |Duplicates(cards, deckCard.rank)| <= 1
      modifies this
      ensures thrown == Duplicates(old(cards), deckCard.rank)
      ensures cards == RemoveDuplicates(old(cards), deckCard.rank)
      ensures victories == old(victories) && isKobo == old(isKobo)
    {
      thrown, cards := PopDuplicates(cards, deckCard);
    }

    /** `_trigger_queen_effect`: turns the card at `cardIndex` face up. */
    method TriggerQueenEffect(cardIndex: nat)
      requires cardIndex < |cards|
      modifies this
      ensures cards == old(cards)[cardIndex := Discover(old(cards)[cardIndex], true)]
      ensures victories == old(victories) && isKobo == old(isKobo)
    {
      cards := cards[cardIndex := Discover(cards[cardIndex], true)];
    }

    /** `_trigger_jack_effect`: hides both selected cards, then exchanges them
        between this hand and the list `otherCards`, which comes back updated. */
    method TriggerJackEffect(myCardIndex: nat, otherCardIndex: nat, otherCards: seq<Card>)
      returns (otherAfter: seq<Card>)
      requires myCardIndex < |cards| && otherCardIndex < |otherCards|
      modifies this
      ensures cards == old(cards)[myCardIndex := Discover(otherCards[otherCardIndex], false)]
      ensures otherAfter == otherCards[otherCardIndex := Discover(old(cards)[myCardIndex], false)]
      ensures |cards| == |old(cards)| && |otherAfter| == |otherCards|
      ensures !cards[myCardIndex].discovered && !otherAfter[otherCardIndex].discovered
      ensures victories == old(victories) && isKobo == old(isKobo)
    {
      otherAfter := otherCards;
      cards := cards[myCardIndex := Discover(cards[myCardIndex], false)];
      otherAfter := otherAfter[otherCardIndex := Discover(otherAfter[otherCardIndex], false)];
      var mine, theirs := cards[myCardIndex], otherAfter[otherCardIndex];
      cards, otherAfter := cards[myCardIndex := theirs], otherAfter[otherCardIndex := mine];
    }

    /** One Queen of `apply_queen_effect` (kobo_ai.py:461-469): turn face up
        the first hidden card of the hand extended by the drawn card. The
        source then indexes the hand with that position; the requires rules
        out the case where it is the drawn card's own (an IndexError). */
    method RevealForQueen(deckCard: Card)
      requires deckCard.discovered || DiscoveredCount(cards) < |cards|
      modifies this
      ensures cards == RevealFirstHidden(old(cards))
      ensures victories == old(victories) && isKobo == old(isKobo)
    {
      var i := FirstHiddenPosition(cards + [deckCard]);
      FirstHiddenAppend(cards, deckCard);
      DiscoveredCountFull(cards);
      if i < |cards| + 1 {
        TriggerQueenEffect(i);
      }
    }

    /** The AI's Queen effect (`apply_queen_effect`, kobo_ai.py:458-469): one
        reveal per Queen thrown. While hidden cards remain (or the drawn card
        is discovered, as after a substitution) no position falls outside the
        hand. */
    method AiQueenEffect(thrown: seq<Card>, deckCard: Card)
      requires deckCard.discovered || QueenCount(thrown) <= |HiddenIndices(cards)|
      modifies this
      ensures cards == RevealHidden(old(cards), QueenCount(thrown))
      ensures victories == old(victories) && isKobo == old(isKobo)
    {
      ghost var start := cards;
      DiscoveredPlusHidden(cards);
      for t := 0 to |thrown|
        invariant cards == RevealHidden(start, QueenCount(thrown[..t]))
        invariant deckCard.discovered || QueenCount(thrown) - QueenCount(thrown[..t]) <= |cards| - DiscoveredCount(cards)
        invariant QueenCount(thrown[..t]) <= QueenCount(thrown)
        invariant victories == old(victories) && isKobo == old(isKobo)
      {
        QueenLoopStep(start, thrown, t, cards, deckCard.discovered);
        if thrown[t].rank == Queen {
          RevealForQueen(deckCard);
        }
      }
      assert thrown[..|thrown|] == thrown;
    }
  }

  /** One pass of the Queen loop: a Queen reveals one more hidden card,
      which exists while enough hidden cards remain for the Queens left. */
  lemma QueenLoopStep(start: seq<Card>, thrown: seq<Card>, t: nat, before: seq<Card>, deckDiscovered: bool)
    requires t < |thrown|
    requires before == RevealHidden(start, QueenCount(thrown[..t]))
    requires deckDiscovered || QueenCount(thrown) - QueenCount(thrown[..t]) <= |before| - DiscoveredCount(before)
    ensures thrown[t].rank == Queen ==> deckDiscovered || DiscoveredCount(before) < |before|
    ensures var after := if thrown[t].rank == Queen then RevealFirstHidden(before) else before;
            after == RevealHidden(start, QueenCount(thrown[..t + 1]))
            && (deckDiscovered || QueenCount(thrown) - QueenCount(thrown[..t + 1]) <= |after| - DiscoveredCount(after))
            && QueenCount(thrown[..t + 1]) <= QueenCount(thrown)
  {
    var q := QueenCount(thrown[..t]);
    QueenCountStep(thrown, t);
    QueenCountPrefix(thrown, t + 1);
    if thrown[t].rank == Queen {
      RevealHiddenStep(start, q);
      RevealFirstHiddenCount(before);
    }
  }

  /** The search of the first hidden card in a list (kobo_ai.py:464-469). */
  method FirstHiddenPosition(s: seq<Card>) returns (i: nat)
    ensures i == FirstHidden(s)
  {
    i := 0;
    while i < |s| && s[i].discovered
      invariant i <= |s|
      invariant forall k :: 0 <= k < i ==> s[k].discovered
    {
      i := i + 1;
    }
  }

  /** Looking past the hand into the drawn card: the first hidden position of
      the extended list is the hand's own if it has one, else the drawn card's
      position if it is hidden, else none. */
  lemma {:induction false} FirstHiddenAppend(s: seq<Card>, c: Card)
    ensures FirstHidden(s + [c])
         == if FirstHidden(s) < |s| then FirstHidden(s) else if c.discovered then |s| + 1 else |s|
  {
    if s != [] && s[0].discovered {
      assert (s + [c])[1..] == s[1..] + [c];
      FirstHiddenAppend(s[1..], c);
    }
  }


  lemma QueenCountStep(s: seq<Card>, t: nat)
    requires t < |s|
    ensures QueenCount(s[..t + 1]) == QueenCount(s[..t]) + if s[t].rank == Queen then 1 else 0
  {
    assert s[..t + 1][..t] == s[..t];
  }

  lemma {:induction false} QueenCountPrefix(s: seq<Card>, i: nat)
    requires i <= |s|
    ensures QueenCount(s[..i]) <= QueenCount(s)
  {
    if i < |s| {
      assert s[..i] == s[..|s| - 1][..i];
      QueenCountPrefix(s[..|s| - 1], i);
    } else {
      assert s[..i] == s;
    }
  }

  lemma {:induction false} RevealHiddenStep(s: seq<Card>, q: nat)
    ensures RevealHidden(s, q + 1) == RevealFirstHidden(RevealHidden(s, q))
    decreases q
  {
    if q > 0 {
      var t := RevealFirstHidden(s);
      RevealHiddenStep(t, q - 1);
      calc {
        RevealHidden(s, q + 1);
        RevealHidden(t, q);
        RevealFirstHidden(RevealHidden(t, q - 1));
        RevealFirstHidden(RevealHidden(s, q));
      }
    }
  }
}
