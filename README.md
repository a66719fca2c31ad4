# Kobo card game engine, modelled in Dafny

This project models the game engine of `kobo_ai.py`, a two-player game of
Kobo. A human plays against a scripted AI.

Each player holds a short hand of cards. Every card is face down (hidden)
or face up (discovered). On each turn a player draws the top card of the
deck and either:

- **substitutes** it for a card of the hand, throwing the replaced card, or
- **declines** it.

Either move also throws every discovered card of the matching rank (the
"duplicates"). The opponent then throws its own cards of the thrown ranks.
A thrown Queen reveals a hidden card, and a thrown Jack swaps cards. The
round ends when a hand is empty.

The model has six modules, one per part of the engine:

| file | module | what it holds |
|---|---|---|
| `cards.dfy` | `Cards` | ranks, suits, the `Card` value with its `discovered` flag, and game equality (by rank) |
| `hands.dfy` | `Hands` | a class `Player` for the hand state: dealing, substitution, decline, and the Queen/Jack primitives, plus the specification functions that say what they compute |
| `deck.dfy` | `Decks` | the 52-card deck, the shuffle as a permutation, and per-rank counts |
| `game.dfy` | `Games` | a class `Game`: dealing, drawing, the opponent-side duplicate throw, the victory check, and the AI's turn |
| `input.dfy` | `Input` | the human's line classification: whitespace splitting, the index and command checks, the Kobo check, and a class `PlayerInput` |
| `ai.dfy` | `Ai` | the AI's helper searches and its priority ladder `Decide` |

Where the code departs from its own comments or from the rules of the
game, the model follows the code:

- **Substitution throws a drawn card of the same rank.** The drawn card is
  marked discovered before the duplicate scan (kobo_ai.py:272). So if its
  rank equals the replaced card's rank, it is thrown too
  (`Hands.DrawnCardOfSameRankIsThrown`).
- **A declined card is not thrown.** `_do_not_substitute_card` never adds
  the drawn card to its returned list (kobo_ai.py:285-293). So `launch`
  never moves it to the discard pile.
- **A Kobo suffix is never accepted.** The token guard
  `not 1 >= len(inp) <= 2` accepts only lines of at most one token
  (`Input.TwoTokensAreRejected`).
- **`_check_kobo` never holds.** It compares a string with an enumeration
  member (`Input.CheckKobo`). So the human's Kobo flag is never set, and
  the AI's Kobo rule (kobo_ai.py:510-516) never runs. That rule also tests
  for "no Jack known" where its comment says "found a jack"
  (`Ai.KoboRuleWithoutJack`, `Ai.KoboRuleSkippedWithKnownJack`).
- **A blank line raises.** The guard lets through a line with no tokens at
  all, and `inp[0]` then raises `IndexError` (`Input.BlankLineRaises`).
  This is modelled as an explicit outcome.
- **Typing "K" crashes the game.** `_handle_input` has no branch for the
  Kobo key, so it returns `None` (kobo_ai.py:336-340, `Input.TypedAnswerMove`).
  `launch` passes that `None` to `_throw_duplicate_cards` (kobo_ai.py:174),
  where `map` over it raises `TypeError` (kobo_ai.py:233).
  `Games.Game.EndTurn` takes a list of thrown cards and does not model
  this crash.
- **The Queen rule replaces the wrong card when a hidden card comes
  first.** The rule computes its position among the discovered cards only,
  but the hand is indexed with it (`Ai.QueenRuleReplacesHiddenCard`).
  The positions agree once no card is hidden, which holds from
  kobo_ai.py:534 on (`Ai.Decide`).
- **The AI can announce Kobo while holding a card that is not great.** The
  announcement looks at one card only, the best hit
  (`Ai.KoboAnnouncedWithoutAllGreat`). The converse holds: if every card
  is great, Kobo is announced (`Ai.AllGreatAnnouncesKobo`).

Two inputs of the original program are parameters here:

- the shuffle's outcome is a permutation `order` of the 52 positions;
- the human's typed lines are a sequence `lines`.

## Model

| member | source | states |
|---|---|---|
| Cards.Rank.Value | kobo_ai.py:9-22 | every rank's enumeration value lies between 1 and 13 |
| Cards.FromFormat | kobo_ai.py:24-26 | a rank read back from a text shows that same text |
| Cards.FormatRoundTrip | kobo_ai.py:24-26 | reading back the text a rank shows gives that rank |
| Cards.AllRanksByValue | kobo_ai.py:9-22 | the ranks in enumeration order have values 1 to 13 |
| Cards.RankValueInjective | kobo_ai.py:9-22 | two ranks have the same value exactly when they are the same rank |
| Cards.NewCard | kobo_ai.py:46-50 | a new card has the given rank and suit and is hidden |
| Cards.GameEq | kobo_ai.py:61-62 | card equality (same shown text) holds exactly when the ranks are equal, whatever the suit and flag |
| Cards.IsGreat | kobo_ai.py:474-476 | a card is great exactly when it is worth 1, 2 or 10 points |
| Hands.HiddenIndices | kobo_ai.py:257-258 | the hidden positions, each in range and hidden, every hidden position listed, in increasing order |
| Hands.Known | kobo_ai.py:506 | the discovered cards, all discovered, no more than the hand holds |
| Hands.KnownInOrder | kobo_ai.py:506 | the known cards are every discovered card of the hand, at increasing hand positions |
| Hands.FirstHidden | kobo_ai.py:464-469 | the first hidden position: every card before it is discovered, and the card there is hidden |
| Hands.DuplicatesPrefix | kobo_ai.py:276-282 | a prefix of a hand holds no more duplicates than the whole |
| Hands.NoDuplicatesKeepsHand | kobo_ai.py:276-282 | with no duplicates, removing them leaves the hand unchanged |
| Hands.DuplicatesPartition | kobo_ai.py:276 | "remove all duplicates" splits the hand: thrown and kept cards together are the hand, as a multiset and in number; every thrown card is a discovered card of the rank and no kept card is |
| Hands.KeptInOrder | kobo_ai.py:276 | the kept cards stand at increasing hand positions, and every card that does not match is kept |
| Hands.ThrownInOrder | kobo_ai.py:276 | the thrown cards stand at increasing hand positions, and every discovered card of the rank is thrown |
| Hands.SingleDuplicate | kobo_ai.py:276-282 | with one duplicate, the thrown list is that card and the kept list is the hand without its position |
| Hands.SubstituteWithoutMatch | kobo_ai.py:270-283 | with no duplicate, substitution keeps the hand length and puts the drawn card, discovered, at the chosen position |
| Hands.SubstituteWithOneMatch | kobo_ai.py:270-283 | with one duplicate, the hand shrinks by one and the extra thrown card is a hand card of the replaced rank |
| Hands.DrawnCardOfSameRankIsThrown | kobo_ai.py:270-283 | a drawn card of the replaced card's rank is thrown as the duplicate, and the hand loses that position |
| Hands.NoMatchesNoDuplicates | kobo_ai.py:276-282 | with no discovered card of the rank, nothing is a duplicate |
| Hands.DuplicatesConcat | kobo_ai.py:276-282 | the duplicate filter works piecewise over joined lists |
| Hands.DiscoveredPlusHidden | kobo_ai.py:257-258 | discovered and hidden cards add up to the hand, and the known cards number the discovered ones |
| Hands.AllDiscoveredKnownIsHand | kobo_ai.py:506 | with no hidden position, the known cards are the whole hand |
| Hands.KnownOfDiscovered | kobo_ai.py:506 | when every card is discovered, the known cards are the hand |
| Hands.RevealCount | kobo_ai.py:306-307 | turning one card face up raises the discovered count by one if it was hidden, else keeps it; the discovered count never drops |
| Hands.DiscoveredCountFull | kobo_ai.py:257-258 | the discovered count is at most the hand size, and equals it exactly when every card is discovered |
| Hands.RevealFirstHiddenCount | kobo_ai.py:461-469 | a Queen reveal keeps the hand size and adds one discovered card unless none was hidden |
| Hands.RevealHiddenCount | kobo_ai.py:458-469 | q reveals in a row discover min(q, number hidden) cards |
| Hands.FacesUpdate | kobo_ai.py:316-317 | overwriting one slot replaces exactly that card's face in the hand |
| Hands.JackSwapKeepsCards | kobo_ai.py:309-318 | a Jack swap keeps both hands' cards together: no card appears or disappears |
| Hands.PopDuplicates | kobo_ai.py:277-282 | with at most one duplicate, the scan with pops by original index throws exactly the discovered cards of the rank and keeps the rest in order |
| Hands.StaleScan | kobo_ai.py:277-282 | the scan as written, with the stale index: when it does not raise, it moves cards from the copy to the thrown list and loses or invents none |
| Hands.StaleScanThrowsWrongCard | kobo_ai.py:277-282 | with two duplicates the scan as written throws the card after the second one and keeps that duplicate |
| Hands.StaleScanIndexError | kobo_ai.py:287-292 | with two adjacent duplicates at the end, the second pop is out of range |
| Hands.Player.constructor | kobo_ai.py:243-245 | a new player has no victories and no Kobo flag |
| Hands.Player.SetCards | kobo_ai.py:248-251 | the hand is the dealt cards, with exactly the first two turned face up |
| Hands.Player.NbCards | kobo_ai.py:253-255 | the hand size is its discovered cards plus its hidden ones |
| Hands.Player.HiddenCards | kobo_ai.py:257-259 | exactly the hidden positions of the hand, one per undiscovered card |
| Hands.Player.Win | kobo_ai.py:261-262 | the victory count goes up by one and nothing else changes |
| Hands.Player.SubstituteCard | kobo_ai.py:270-283 | throws the replaced card first and then the duplicates of its rank in the hand with the drawn card placed; the new hand is that hand without them |
| Hands.Player.DoNotSubstituteCard | kobo_ai.py:285-293 | throws exactly the hand's duplicates of the drawn card's rank; the drawn card enters neither the hand nor the thrown list |
| Hands.Player.TriggerQueenEffect | kobo_ai.py:306-307 | only the flag of the chosen card changes, to discovered |
| Hands.Player.TriggerJackEffect | kobo_ai.py:309-318 | the two chosen cards change places, both end hidden, lengths and all other slots unchanged |
| Hands.Player.RevealForQueen | kobo_ai.py:461-469 | one Queen turns the hand's first hidden card face up, provided the hand has one or the drawn card is discovered |
| Hands.Player.AiQueenEffect | kobo_ai.py:458-469 | one first-hidden reveal per thrown Queen |
| Hands.FirstHiddenPosition | kobo_ai.py:464-469 | the loop finds the first hidden position |
| Hands.FirstHiddenAppend | kobo_ai.py:461-469 | in the hand extended by the drawn card, the first hidden position is the hand's own if it has one, else the drawn card's if hidden |
| Decks.StandardDeck | kobo_ai.py:191-197 | the built deck has 52 cards |
| Decks.BuildDeck | kobo_ai.py:193-197 | the nested loops build the standard deck, suits outer and ranks inner |
| Decks.SuitIndex | kobo_ai.py:28-32 | every suit has a position among the four suits |
| Decks.StandardDeckDistinctAt | kobo_ai.py:193-197 | two positions of the built deck hold different (rank, suit) pairs |
| Decks.StandardDeckDistinct | kobo_ai.py:193-197 | the 52 built cards are hidden and pairwise distinct as (rank, suit) |
| Decks.StandardDeckHasEveryCard | kobo_ai.py:193-197 | every (rank, suit) pair is in the built deck |
| Decks.Shuffled | kobo_ai.py:198 | shuffling keeps the deck size |
| Decks.ShuffledDeckWellFormed | kobo_ai.py:191-199 | whatever the shuffle, the deck holds 52 hidden cards, pairwise distinct, each from the built deck |
| Decks.CountRank | kobo_ai.py:229-230 | a rank's count is at most the number of cards, and zero exactly when no card has the rank |
| Decks.AllRanksListOnce | kobo_ai.py:9-22 | the rank list names every rank exactly once |
| Decks.CountsAddUpToLength | kobo_ai.py:229-230 | the thirteen per-rank counts add up to the number of cards |
| Games.Ranks | kobo_ai.py:233 | one thrown rank per thrown card |
| Games.RemoveFirst | kobo_ai.py:237 | `remove` leaves a list without a card of the rank as it is, and never adds a card |
| Games.RemoveFirstRemovesOne | kobo_ai.py:237 | `remove` takes out exactly one card, of the rank asked for, when one is present |
| Games.ThrowMatchingRanks | kobo_ai.py:235-238 | the loop that removes while iterating takes out only cards of a thrown rank; it removes something exactly when some card has a thrown rank, and otherwise leaves the hand as it was |
| Games.Game.constructor | kobo_ai.py:144-147 | a new game deals from the shuffled deck: AI first, then human, each card discovered exactly when it is among the first two of its hand; the deck keeps 52 − 2·n cards and the discard pile is empty |
| Games.Game.PopCard | kobo_ai.py:151-155 | returns the last card and shortens the deck by one; an empty deck gives None |
| Games.Game.InitGame | kobo_ai.py:191-210 | builds, shuffles and deals n cards to each hand by successive pops, leaving 52 − 2·n cards |
| Games.Game.DealHand | kobo_ai.py:205-208 | n pops take the last n cards of the deck, in pop order |
| Games.Popped | kobo_ai.py:204-206 | n pops of a deck give its last n cards, the top card first |
| Games.DealtFromTop | kobo_ai.py:201-210 | from a 52-card deck the AI's k-th card is the (k+1)-th from the top and the human's the (n+k+1)-th |
| Games.Game.DealTwoHands | kobo_ai.py:201-207 | the outer loop deals the AI's n cards from the top, then the human's next n, in pop order; the deck keeps all but those 2·n cards |
| Games.Game.DealFromDeck | kobo_ai.py:201-211 | from a full hidden deck, the AI's k-th card is the (k+1)-th from the top and the human's the (n+k+1)-th, each face up exactly when k < 2; the deck keeps its first 52 − 2·n cards; victories and Kobo flags are unchanged |
| Games.Game.ThrowDuplicateCards | kobo_ai.py:232-238 | only the non-acting player's hand loses cards, only cards of a thrown rank; the acting hand is untouched |
| Games.Game.CheckVictory | kobo_ai.py:212-221 | the round ends exactly when a hand is empty; the human is checked first, and only the owner of the empty hand scores |
| Games.Game.AiPlay | kobo_ai.py:481-561 | the AI's turn applies the ladder's move: throws and hand as substitution or decline, then one reveal per thrown Queen; Kobo is set when announced or when every remaining card is great |
| Games.Game.EndTurn | kobo_ai.py:174-185 | after a move, the opponent throws its duplicates, the thrown cards join the discard pile, the turn passes, and the victory check runs |
| Input.Word | kobo_ai.py:109 | the longest leading run without whitespace |
| Input.Split | kobo_ai.py:109 | `str.split()` gives non-empty tokens without whitespace |
| Input.SplitBlank | kobo_ai.py:109 | a line gives no token exactly when it is all whitespace |
| Input.SplitSpells | kobo_ai.py:109 | the tokens written one after the other are the line's non-whitespace characters, in order |
| Input.SplitOneWord | kobo_ai.py:109 | a word without whitespace splits into itself |
| Input.SplitTwoWords | kobo_ai.py:109 | two words separated by a blank split into those two tokens |
| Input.ShowNat | kobo_ai.py:113-114 | the text of a number is never empty |
| Input.ShowNatRoundTrip | kobo_ai.py:113-114 | the text of a number is a digit string, and `int` reads it back as the number |
| Input.CheckCardIndex | kobo_ai.py:108-116 | accepts exactly one digit token n with 1 ≤ n ≤ nb_cards; raises exactly on a line without tokens |
| Input.TokenCountRejected | kobo_ai.py:110 | the chained guard `not 1 >= len(inp) <= 2` rejects exactly the lines of two tokens or more |
| Input.IsValidCommand | kobo_ai.py:135-136 | a command is valid exactly when it is "Q" or "K", a one-character text |
| Input.CheckCommand | kobo_ai.py:118-123 | accepts exactly one token in {"Q", "K"}; raises exactly on a line without tokens |
| Input.CheckKobo | kobo_ai.py:125-133 | never holds: a string is compared with an enumeration member |
| Input.NeedsAnotherLine | kobo_ai.py:84-86 | the loop test asks again exactly when the accepted checks all fail, for every combination of accepted kinds; it raises on a blank line when any check runs |
| Input.PlayerInput.constructor | kobo_ai.py:72-77 | no flag set, empty value |
| Input.PlayerInput.InputLoop | kobo_ai.py:79-97 | every line before the accepted one was rejected; the accepted line is classified as an index (stored minus one) or a command; the quit flag needs "Q" exactly as typed |
| Input.PlayerInput.Classify | kobo_ai.py:89-97 | the classification tail: Kobo flag unchanged, index before command, the quit flag only for the raw text "Q"; raises only on a line without tokens |
| Input.HumanMove | kobo_ai.py:331-340 | an index substitutes, the quit key declines, and the "K" command makes no move (the source returns `None`, on which the end of the turn raises) |
| Input.TypedAnswerMove | kobo_ai.py:331-340 | from a fresh input, a typed card number k substitutes at k - 1, "Q" declines, and "K" or " Q" give no move (the `None` on which the end of the turn raises) |
| Input.TypedIndexIsAccepted | kobo_ai.py:108-116 | typing k with 1 ≤ k ≤ nb_cards is accepted at once and read as position k − 1 |
| Input.QuitIsAccepted | kobo_ai.py:118-123 | "Q" is a command, not an index, and ends the loop |
| Input.TwoTokensAreRejected | kobo_ai.py:110 | a line of two tokens passes neither check, so the loop asks again |
| Input.BlankLineRaises | kobo_ai.py:110-112 | a blank line makes both checks and the loop test raise |
| Ai.FirstCardIndex | kobo_ai.py:416-420 | −1 exactly when no card has the rank, else the least position with it |
| Ai.AllGreat | kobo_ai.py:478-482 | holds exactly when every card is an Ace, a Two or a Ten |
| Ai.UnpeekedIndex | kobo_ai.py:422-435 | 0 for no cards, else the first position not yet peeked; None exactly when every position was peeked (the random fallback) |
| Ai.UnpeekedFrom | kobo_ai.py:432-434 | the first position from i on not yet peeked, or none |
| Ai.HiddenCardIndex | kobo_ai.py:437-440 | −1 exactly when every card is discovered, else the first hidden position |
| Ai.BestHitFrom | kobo_ai.py:387-399 | the scan from position i ends at a hand position |
| Ai.BestHitIndex | kobo_ai.py:382-399 | the best hit is a position of the list |
| Ai.BestHitFromMeaning | kobo_ai.py:387-399 | the scan from i returns the first early exit at or after i if there is one, else the first highest competing value |
| Ai.BestHitIndexMeaning | kobo_ai.py:382-399 | the best hit is the first position past 0 that is a Queen while cards are hidden, or not great with one or two left in the deck; failing that, the first position of highest value |
| Ai.GetBestHitIndex | kobo_ai.py:382-399 | the loop with its two early returns computes the best hit |
| Ai.CountValue | kobo_ai.py:406-408 | a value's count is at most the number of cards |
| Ai.WorstFrom | kobo_ai.py:401-414 | the scan from i ends at a position of the list |
| Ai.WorstCombinationIndex | kobo_ai.py:401-414 | the worst combination is a position of the list |
| Ai.WorstFromMeaning | kobo_ai.py:401-414 | the scan from i returns the first position of top score |
| Ai.WorstCombinationIndexMeaning | kobo_ai.py:401-414 | the worst combination is the first position whose rank's cards add up to the most points |
| Ai.FirstTopScoreUnique | kobo_ai.py:410-413 | only one position is the first of a top score |
| Ai.ValueScoreCounts | kobo_ai.py:406-409 | the points added up for a value are that value times the number of cards holding it |
| Ai.NoValueBefore | kobo_ai.py:406-408 | a value not yet met has no points |
| Ai.SumPerValue | kobo_ai.py:406-408 | the dictionary holds each value's total, its keys in first-appearance order |
| Ai.FirstHighestTotal | kobo_ai.py:410 | `max` gives the first key, in insertion order, of highest total |
| Ai.GetWorstCombinationIndex | kobo_ai.py:401-414 | the sum, max and first-index steps give the first position of top score |
| Ai.Decide | kobo_ai.py:505-561 | every substitution names a hand position except the -1 of the Kobo rule; a drawn Queen is declined unless that rule fires first; Kobo is announced only when no card is hidden |
| Ai.LateChoice | kobo_ai.py:534-561 | a substitution there always names a known card, never the drawn one; Kobo is announced exactly when the best hit is great |
| Ai.DrawnQueenIsDeclined | kobo_ai.py:518-521 | without a human Kobo, a drawn Queen is declined |
| Ai.HiddenCardMeansSubstitute | kobo_ai.py:518-532 | without a human Kobo, a drawn card that is not a Queen and a hidden card in hand mean substitution, at the known Queen if there is one, else at the first hidden card |
| Ai.QueenRuleReplacesHiddenCard | kobo_ai.py:522-526 | with a hidden card before the known Queen, the Queen rule replaces the hidden card |
| Ai.NoHiddenIndices | kobo_ai.py:257-258 | a fully discovered hand has no hidden positions |
| Ai.DecideWithoutHidden | kobo_ai.py:518-534 | with every card discovered and no Queen drawn, the Queen and hidden-card rules never fire and the late choice decides |
| Ai.KoboWhenBestHitGreat | kobo_ai.py:534-538 | with every card discovered and no Queen drawn, Kobo is announced exactly when the best-hit card is great |
| Ai.AllGreatAnnouncesKobo | kobo_ai.py:534-545 | with no card hidden and every card great, the AI announces Kobo |
| Ai.KoboAnnouncedWithoutAllGreat | kobo_ai.py:534-540 | holding a Five and drawing a Ten, the AI announces Kobo |
| Ai.KoboRuleSkippedWithKnownJack | kobo_ai.py:510-516 | with a human Kobo and a known Jack, the Kobo rule is passed over |
| Ai.KoboRuleWithoutJack | kobo_ai.py:513-516 | with a human Kobo and no known Jack, the AI substitutes at position −1 |
| Ai.KnownRankIsDeclined | kobo_ai.py:547-550 | a drawn card that is not great, of a rank already held, is declined when the Kobo rule does not fire |

## Left out

- Terminal output: `print`, `display_cards`, `_display_deck_card`, `Colors`, `ui_utils.py`, and the debug prints of `AIPlayer.play`. None of it affects the game state.
- `input()`: the typed lines are a parameter of `Input.PlayerInput.InputLoop`. When they run out, the outcome is `Exhausted`.
- Randomness:
  - `random.shuffle` becomes a permutation parameter;
  - the coin toss for the first player is not modelled;
  - the `random.randint` fallback of `get_random_card_index` is the `None` of `Ai.UnpeekedIndex`.
- The unbounded `launch` loop: one turn's end is `Games.Game.EndTurn`; the loop around it is not modelled.
- The human's turn (`Player.play`, `Player._apply_card_effects`): its effect prompts are interactive loops. Modelled are `Input.PlayerInput.InputLoop`, `Input.HumanMove` and the primitives these prompts call. The human's Queen reveals a card of the human's own hand at a position chosen among the AI's cards; this is not modelled.
- The AI's Jack effect (kobo_ai.py:447-456): it runs only when the human's Kobo flag is set, and `Input.CheckKobo` shows that flag is never set. The source also passes the thrown cards as the swap partner.
- `Card.__hash__`: no set or dictionary of cards is used.
- Python's negative indices: the `Substitute(-1)` of the dead Kobo rule is returned by `Ai.Decide`, but `Games.Game.AiPlay` does not run it (its requires asks for a hand position).
- `str.isdigit` and `str.split` are modelled for ASCII characters only: Unicode digits and Unicode whitespace are not.
- `Card` objects are shared between lists in the source. Cards are values here, and each list holds its own copies.
- Hands.Player.SubstituteCard: requires at most one duplicate in the hand with the drawn card placed. With two or more, the source throws the wrong card or raises (see Findings).
- Hands.Player.DoNotSubstituteCard: requires at most one duplicate of the drawn card's rank, for the same reason.
- Hands.PopDuplicates: requires at most one duplicate. `Hands.StaleScan` models the many-duplicate case.
- Hands.Player.RevealForQueen, Hands.Player.AiQueenEffect: require that each thrown Queen finds a hidden card in the hand, unless the drawn card is discovered. When the first hidden card of the hand with the drawn card appended is the drawn card itself, the source reveals the position just past the hand and raises IndexError (kobo_ai.py:466-468); that error path is not modelled.
- Games.Game.AiPlay: requires `Games.AiMoveFits`, the conjunction of the requires above for the move the ladder picks. It also requires that no Jack is thrown while the human's Kobo flag is set. The Jack effect that would then run (kobo_ai.py:447-456, 471) is not modelled, and `Input.CheckKobo` shows the flag is never set.
- Games.ThrowMatchingRanks: says which cards may go, not which ones do. The loop skips the card after each removal.
- Games.Game.constructor: requires 2·n ≤ 52. With more, `pop_card` would exit the process during dealing.

## Findings

| source | as written | input that shows it | evidently intended | confidence | as-written member | corrected member |
|---|---|---|---|---|---|---|
| kobo_ai.py:277-282, 287-292 | after the first pop, later duplicates are popped from the shortened copy at their index in the original list | hand 2♣ 2♦ 7♥ K♠ (first two discovered), drawn 2♠, substitute at 0: the scan throws 2♠ and 7♥ and keeps 2♦ K♠; with two adjacent discovered Sevens at the end, the second pop raises IndexError | "remove all duplicates" (kobo_ai.py:276): throw every discovered card of the rank and keep the rest in order | high, not executed | Hands.StaleScan, Hands.StaleScanThrowsWrongCard, Hands.StaleScanIndexError | Hands.PopDuplicates, Hands.DuplicatesPartition |
