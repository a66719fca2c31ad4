/** The human's answers at the terminal (kobo_ai.py, class PlayerInput,
    lines 67-142, and Player._handle_input, lines 331-340). A line is split
    on whitespace; a card index is a digit string between 1 and the number
    of cards; a command is "Q" or "K". */
module Input {
  import opened Cards
  import opened Hands

  /** Whitespace as `str.split()` sees it among ASCII characters: blank,
      tab, line feed, vertical tab, form feed, carriage return and the four
      separators 0x1C-0x1F. */
  predicate IsSpace(c: char)
  {
    c == ' ' || c == '\t' || c == '\n' || c == '\r' || c == '\U{000B}' || c == '\U{000C}'
    || '\U{001C}' <= c <= '\U{001F}'
  }

  predicate NoSpace(s: string)
  {
    forall k :: 0 <= k < |s| ==> !IsSpace(s[k])
  }

  /** The longest prefix of `s` without whitespace. */
  function Word(s: string): (w: string)
    ensures |w| <= |s| && w == s[..|w|] && NoSpace(w)
    ensures |w| < |s| ==> IsSpace(s[|w|])
    ensures s != [] && !IsSpace(s[0]) ==> w != []
  {
    if s == [] || IsSpace(s[0]) then []
    else [s[0]] + Word(s[1..])
  }

  /** `str.split()`: non-empty tokens without whitespace. SplitBlank shows
      there are none exactly when the line is all whitespace, and
      SplitSpells that together they spell the line's non-whitespace
      characters in order. */
  function Split(s: string): (ts: seq<string>)
    ensures forall t :: t in ts ==> t != [] && NoSpace(t)
    decreases |s|
  {
    if s == [] then []
    else if IsSpace(s[0]) then Split(s[1..])
    else
      var w := Word(s);
      [w] + Split(s[|w|..])
  }

  /** The tokens written one after the other. */
  function Concat(ts: seq<string>): string
  {
    if ts == [] then [] else ts[0] + Concat(ts[1..])
  }

  /** The characters of `s` that are not whitespace, in order. */
  function NonSpace(s: string): string
  {
    if s == [] then []
    else (if IsSpace(s[0]) then [] else [s[0]]) + NonSpace(s[1..])
  }

  /** A line splits into no token exactly when it is all whitespace. */
  lemma {:induction false} SplitBlank(s: string)
    ensures Split(s) == [] <==> forall k :: 0 <= k < |s| ==> IsSpace(s[k])
    decreases |s|
  {
    if s != [] && IsSpace(s[0]) {
      SplitBlank(s[1..]);
      assert forall k :: 1 <= k < |s| ==> s[k] == s[1..][k - 1];
    }
  }

  /** Splitting drops the whitespace and nothing else: the tokens spell the
      line's other characters in order. */
  lemma {:induction false} SplitSpells(s: string)
    ensures Concat(Split(s)) == NonSpace(s)
    decreases |s|
  {
    if s != [] {
      if IsSpace(s[0]) {
        SplitSpells(s[1..]);
      } else {
        var w := Word(s);
        WordSpells(s);
        SplitSpells(s[|w|..]);
        assert Split(s)[1..] == Split(s[|w|..]);
      }
    }
  }

  /** The first word is the start of the line's non-whitespace characters. */
  lemma WordSpells(s: string)
    ensures NonSpace(s) == Word(s) + NonSpace(s[|Word(s)|..])
  {
    var w := Word(s);
    assert s == w + s[|w|..];
    NonSpaceAfterWord(w, s[|w|..]);
  }

  /** A run without whitespace passes through NonSpace unchanged. */
  lemma {:induction false} NonSpaceAfterWord(w: string, rest: string)
    requires NoSpace(w)
    ensures NonSpace(w + rest) == w + NonSpace(rest)
  {
    if w != [] {
      assert (w + rest)[0] == w[0] && !IsSpace(w[0]);
      assert (w + rest)[1..] == w[1..] + rest;
      NonSpaceAfterWord(w[1..], rest);
      assert w == [w[0]] + w[1..];
    } else {
      assert w + rest == rest;
    }
  }

  /** A non-empty string without whitespace is one token. */
  lemma SplitOneWord(s: string)
    requires s != [] && NoSpace(s)
    ensures Split(s) == [s]
  {
    WordOfNoSpace(s);
    assert s[|s|..] == [];
  }

  lemma {:induction false} WordOfNoSpace(s: string)
    requires NoSpace(s)
    ensures Word(s) == s
  {
    if s != [] {
      WordOfNoSpace(s[1..]);
    }
  }

  /** Two words with a blank between them are two tokens. */
  lemma SplitTwoWords(a: string, b: string)
    requires a != [] && NoSpace(a) && b != [] && NoSpace(b)
    ensures Split(a + " " + b) == [a, b]
  {
    var rest := " " + b;
    var s := a + rest;
    assert s == a + " " + b;
    WordBeforeBlank(a, rest);
    assert s[0] == a[0] && !IsSpace(s[0]);
    assert s[|a|..] == rest;
    assert Split(s) == [a] + Split(rest);
    assert rest[1..] == b;
    SplitOneWord(b);
    assert Split(rest) == [b];
  }

  lemma {:induction false} WordBeforeBlank(a: string, rest: string)
    requires NoSpace(a) && rest != [] && IsSpace(rest[0])
    ensures Word(a + rest) == a
  {
    if a != [] {
      assert (a + rest)[1..] == a[1..] + rest;
      WordBeforeBlank(a[1..], rest);
    }
  }

  /** `str.isdigit()` for ASCII: a non-empty run of decimal digits. */
  predicate IsDigits(s: string)
  {
    s != [] && forall k :: 0 <= k < |s| ==> '0' <= s[k] <= '9'
  }

  /** `int(s)` on a digit string. */
  function ParseNat(s: string): nat
  {
    if s == [] then 0
    else 10 * ParseNat(s[..|s| - 1]) + DigitValue(s[|s| - 1])
  }

  function DigitValue(c: char): nat
  {
    if '0' <= c <= '9' then c as int - '0' as int else 0
  }

  /** The decimal text of `k`, as a user types it. */
  function ShowNat(k: nat): (s: string)
    ensures s != []
  {
    if k < 10 then [('0' as int + k) as char]
    else ShowNat(k / 10) + [('0' as int + k % 10) as char]
  }

  /** Reading back the text of a number gives the number. */
  lemma {:induction false} ShowNatRoundTrip(k: nat)
    ensures IsDigits(ShowNat(k)) && NoSpace(ShowNat(k))
    ensures ParseNat(ShowNat(k)) == k
  {
    var s := ShowNat(k);
    if k >= 10 {
      ShowNatRoundTrip(k / 10);
      assert s[..|s| - 1] == ShowNat(k / 10);
    } else {
      assert s[..|s| - 1] == [];
    }
  }

  /** The two command keys and their text. */
  datatype CommandKey = QuitKey | KoboKey
  {
    function Text(): string
    {
      match this
      case QuitKey => "Q"
      case KoboKey => "K"
    }
  }

  /** `_is_valid_command`: the text is one of the command keys' texts. */
  predicate IsValidCommand(cmd: string): (v: bool)
    ensures v <==> cmd == "Q" || cmd == "K"
    ensures v ==> |cmd| == 1
  {
    cmd in {QuitKey.Text(), KoboKey.Text()}
  }

  /** A Python value as far as `==` between a string and an enumeration
      member is concerned: values of different kinds are never equal. */
  datatype PyValue = Str(s: string) | Key(k: CommandKey)

  /** The token-count guard of `_check_card_index` and `_check_command`,
      written as chained: `not 1 >= len(inp) <= 2`. It rejects exactly the
      lines of two tokens or more. */
  predicate TokenCountRejected(n: nat): (rejected: bool)
    ensures rejected <==> n >= 2
  {
    !(1 >= n && n <= 2)
  }

  /** `_check_card_index`: None is the IndexError raised on a line without
      tokens, which the guard lets through. */
  function CheckCardIndex(line: string, nbCards: int): (r: Option<bool>)
    ensures r == None <==> Split(line) == []
    ensures r == Some(true) <==>
              |Split(line)| == 1 && IsDigits(Split(line)[0]) && 1 <= ParseNat(Split(line)[0]) <= nbCards
  {
    var inp := Split(line);
    if TokenCountRejected(|inp|) then Some(false)
    else if |inp| == 0 then None
    else if !IsDigits(inp[0]) then Some(false)
    else Some(1 <= ParseNat(inp[0]) <= nbCards)
  }

  /** `_check_command`, with the same guard and the same IndexError. */
  function CheckCommand(line: string): (r: Option<bool>)
    ensures r == None <==> Split(line) == []
    ensures r == Some(true) <==> |Split(line)| == 1 && Split(line)[0] in {"Q", "K"}
  {
    var inp := Split(line);
    if TokenCountRejected(|inp|) then Some(false)
    else if |inp| == 0 then None
    else Some(IsValidCommand(inp[0]))
  }

  /** `_check_kobo`: the second of two tokens must be a valid command and
      equal to the Kobo key; a string never equals an enumeration member,
      so a Kobo declaration is never recognised. */
  function CheckKobo(line: string): (r: bool)
    ensures !r
  {
    var inp := Split(line);
    if |inp| != 2 then false
    else
      var cmd := inp[1];
      IsValidCommand(cmd) && Str(cmd) == Key(KoboKey)
  }

  /** The test of the `while` loop of `input_loop` (kobo_ai.py:84-86), with
      Python's left-to-right short-circuit: Some(true) asks for another line,
      None is a raise inside one of the checks. */
  function NeedsAnotherLine(line: string, nbCards: int, acceptIndexes: bool, acceptCommands: bool): (r: Option<bool>)
    ensures r == None <==> (acceptIndexes || acceptCommands) && Split(line) == []
    ensures acceptIndexes && acceptCommands ==>
              (r == Some(false) <==> CheckCardIndex(line, nbCards) == Some(true) || CheckCommand(line) == Some(true))
    ensures acceptIndexes && !acceptCommands ==> (r == Some(false) <==> CheckCardIndex(line, nbCards) == Some(true))
    ensures !acceptIndexes && acceptCommands ==> (r == Some(false) <==> CheckCommand(line) == Some(true))
  {
    if acceptIndexes && acceptCommands then
      match CheckCardIndex(line, nbCards)
      case None => None
      case Some(isIndex) =>
        if isIndex then Some(false)
        else match CheckCommand(line)
          case None => None
          case Some(isCommand) => Some(!isCommand)
    else if acceptIndexes then
      match CheckCardIndex(line, nbCards)
      case None => None
      case Some(isIndex) => Some(!isIndex)
    else if acceptCommands then
      match CheckCommand(line)
      case None => None
      case Some(isCommand) => Some(!isCommand)
    else Some(false)
  }

  /** What `value` holds: the raw line, or the zero-based card index. */
  datatype InputValue = Text(line: string) | Index(index: int)

  /** How `input_loop` ends for a given sequence of typed lines. */
  datatype Outcome =
    | Classified(used: nat)  // the line at `used - 1` was accepted and classified
    | Raised(used: nat)      // a check raised IndexError on the line at `used - 1`
    | Exhausted              // every line was rejected; the program would wait for more

  /** The flags and value that classifying the accepted `line` leaves,
      from the flags `was…` it found: an index is stored zero-based and sets
      `isIndex`; otherwise the raw line stays, a valid command sets
      `isCommand`, and a command typed as "Q" marks the quit key. */
  predicate ClassifiedAs(line: string, nbCards: int, wasIndex: bool, wasCommand: bool, wasQuitKey: bool,
                         isIndex: bool, isCommand: bool, isQuitKey: bool, value: InputValue)
  {
    isIndex == (wasIndex || CheckCardIndex(line, nbCards) == Some(true))
    && (CheckCardIndex(line, nbCards) == Some(true) ==>
          value == Index(ParseNat(Split(line)[0]) - 1) && isCommand == wasCommand)
    && (CheckCardIndex(line, nbCards) == Some(false) ==>
          value == Text(line) && isCommand == (wasCommand || CheckCommand(line) == Some(true)))
    && isQuitKey == (wasQuitKey || (isCommand && value == Text("Q")))
  }

  class PlayerInput {
    var isIndex: bool
    var isCommand: bool
    var isKobo: bool
    var isQuitKey: bool
    var value: InputValue

    constructor ()
      ensures !isIndex && !isCommand && !isKobo && !isQuitKey && value == Text("")
    {
      isIndex, isCommand, isKobo, isQuitKey := false, false, false, false;
      value := Text("");
    }

    /** `input_loop`: `lines` are the user's successive answers. The loop
        asks again while the test says so; the accepted line is then
        classified as an index (stored zero-based), or a command, and a
        command equal to "Q" as typed marks the quit key. */
    method InputLoop(nbCards: int, lines: seq<string>, acceptIndexes: bool, acceptCommands: bool)
      returns (outcome: Outcome)
      modifies this
      ensures outcome.Classified? || outcome.Raised? ==> 1 <= outcome.used <= |lines|
      ensures outcome.Classified? || outcome.Raised? ==>
                forall j :: 0 <= j < outcome.used - 1 ==>
                  NeedsAnotherLine(lines[j], nbCards, acceptIndexes, acceptCommands) == Some(true)
      ensures outcome.Exhausted? ==>
                forall j :: 0 <= j < |lines| ==>
                  NeedsAnotherLine(lines[j], nbCards, acceptIndexes, acceptCommands) == Some(true)
      ensures outcome.Classified? ==>
                var line := lines[outcome.used - 1];
                NeedsAnotherLine(line, nbCards, acceptIndexes, acceptCommands) == Some(false)
                && CheckCardIndex(line, nbCards) != None
                && isKobo == old(isKobo)
                && ClassifiedAs(line, nbCards, old(isIndex), old(isCommand), old(isQuitKey),
                                isIndex, isCommand, isQuitKey, value)
      ensures outcome.Raised? ==>
                var line := lines[outcome.used - 1];
                NeedsAnotherLine(line, nbCards, acceptIndexes, acceptCommands) != Some(true)
                && Split(line) == []
    {
      var k := 0;
      while k < |lines| && NeedsAnotherLine(lines[k], nbCards, acceptIndexes, acceptCommands) == Some(true)
        invariant k <= |lines|
        invariant forall j :: 0 <= j < k ==>
                    NeedsAnotherLine(lines[j], nbCards, acceptIndexes, acceptCommands) == Some(true)
      {
        k := k + 1;
      }
      if k == |lines| {
        return Exhausted;
      }
      value := Text(lines[k]);
      if NeedsAnotherLine(lines[k], nbCards, acceptIndexes, acceptCommands) == None {
        return Raised(k + 1);
      }
      outcome := Classify(nbCards);
      if outcome.Raised? {
        return Raised(k + 1);
      }
      return Classified(k + 1);
    }

    /** The tail of `input_loop` (kobo_ai.py:89-97) on the accepted line held
        in `value`. Returns Raised when `_check_card_index` raises, which only
        a line without tokens can cause. */
    method Classify(nbCards: int) returns (outcome: Outcome)
      requires value.Text?
      modifies this
      ensures outcome.Raised? <==> Split(old(value).line) == []
      ensures outcome.Raised? || outcome.Classified?
      ensures isKobo == old(isKobo)
      ensures outcome.Classified? ==>
                ClassifiedAs(old(value).line, nbCards, old(isIndex), old(isCommand), old(isQuitKey),
                             isIndex, isCommand, isQuitKey, value)
      ensures outcome.Raised? ==> isIndex == old(isIndex) && isCommand == old(isCommand) && isQuitKey == old(isQuitKey)
    {
      var line := value.line;
      isKobo := isKobo || CheckKobo(line);
      var asIndex := CheckCardIndex(line, nbCards);
      if asIndex == None {
        return Raised(0);
      }
      if asIndex == Some(true) {
        value := Index(ParseNat(Split(line)[0]) - 1);
        isIndex := true;
      } else if CheckCommand(line) == Some(true) {
        isCommand := true;
      }
      if isCommand && value == Text(QuitKey.Text()) {
        isQuitKey := true;
      }
      return Classified(0);
    }
  }

  /** What `Player._handle_input` does with a classified answer: an index
      substitutes, the quit key declines, and anything else (the "K"
      command) makes no move. */
  function HumanMove(isIndex: bool, isCommand: bool, isQuitKey: bool, value: InputValue): (m: Option<Move>)
    ensures m == Some(Decline) <==> !isIndex && isCommand && isQuitKey
    ensures isIndex ==> m == if value.Index? then Some(Substitute(value.index)) else None
    ensures !isIndex && !(isCommand && isQuitKey) ==> m == None
  {
    if isIndex then
      (if value.Index? then Some(Substitute(value.index)) else None)
    else if isCommand then
      (if isQuitKey then Some(Decline) else None)
    else None
  }

  /** Typing the number k, between 1 and the number of cards, is accepted on
      the first line and read as the zero-based index k - 1. */
  lemma TypedIndexIsAccepted(k: nat, nbCards: int)
    requires 1 <= k <= nbCards
    ensures CheckCardIndex(ShowNat(k), nbCards) == Some(true)
    ensures NeedsAnotherLine(ShowNat(k), nbCards, true, true) == Some(false)
    ensures ParseNat(Split(ShowNat(k))[0]) - 1 == k - 1
  {
    ShowNatRoundTrip(k);
    SplitOneWord(ShowNat(k));
  }

  /** "Q" is accepted as a command and, being "Q" as typed, is the quit key. */
  lemma QuitIsAccepted(nbCards: int)
    ensures CheckCardIndex("Q", nbCards) == Some(false)
    ensures CheckCommand("Q") == Some(true)
    ensures NeedsAnotherLine("Q", nbCards, true, true) == Some(false)
  {
    SplitOneWord("Q");
  }

  /** What a typed answer becomes, from a fresh PlayerInput: a card number
      k substitutes at k - 1, "Q" declines, and "K" gives no move, as does
      " Q", whose raw text is not "Q" even though its one token is. */
  lemma TypedAnswerMove(nbCards: int, k: nat, isIndex: bool, isCommand: bool, isQuitKey: bool, value: InputValue)
    ensures 1 <= k <= nbCards && ClassifiedAs(ShowNat(k), nbCards, false, false, false, isIndex, isCommand, isQuitKey, value)
         ==> HumanMove(isIndex, isCommand, isQuitKey, value) == Some(Substitute(k - 1))
    ensures ClassifiedAs("Q", nbCards, false, false, false, isIndex, isCommand, isQuitKey, value)
         ==> HumanMove(isIndex, isCommand, isQuitKey, value) == Some(Decline)
    ensures ClassifiedAs("K", nbCards, false, false, false, isIndex, isCommand, isQuitKey, value)
         ==> HumanMove(isIndex, isCommand, isQuitKey, value) == None
    ensures ClassifiedAs(" Q", nbCards, false, false, false, isIndex, isCommand, isQuitKey, value)
         ==> HumanMove(isIndex, isCommand, isQuitKey, value) == None
  {
    if 1 <= k <= nbCards {
      TypedIndexIsAccepted(k, nbCards);
    }
    QuitIsAccepted(nbCards);
    SplitOneWord("K");
    assert Split(" Q") == ["Q"] by {
      SplitOneWord("Q");
      assert " Q"[1..] == "Q";
    }
  }

  /** A line of two tokens, such as a card number followed by "K", never
      passes either check: the guard only lets lines of at most one token
      through, so a Kobo declaration is always asked again. */
  lemma {:induction false} TwoTokensAreRejected(a: string, b: string, nbCards: int)
    requires a != [] && NoSpace(a) && b != [] && NoSpace(b)
    ensures CheckCardIndex(a + " " + b, nbCards) == Some(false)
    ensures CheckCommand(a + " " + b) == Some(false)
    ensures NeedsAnotherLine(a + " " + b, nbCards, true, true) == Some(true)
  {
    SplitTwoWords(a, b);
  }

  /** A blank line makes the checks raise instead of being rejected. */
  lemma BlankLineRaises(nbCards: int)
    ensures CheckCardIndex(" ", nbCards) == None
    ensures CheckCommand(" ") == None
    ensures NeedsAnotherLine(" ", nbCards, true, true) == None
  {
    assert Split(" ") == Split(""[..]) by {
      assert " "[1..] == "";
    }
  }
}
