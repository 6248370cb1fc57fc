/** The notation reader and its displays in src/io.rs: one token such as
    "3D6", "D20", "+5" or "4F" becomes a dice request, a space-separated
    line of tokens becomes a roll request, and requests, dice kinds and
    rolls render back as text. This revision's shapes: a request pairs a
    count with a numeric or a text dice kind. */
module Io {
  import opened Text
  import opened Errors

  type DiceNumber = n: nat | n <= 255
  type NumericRoll = n: nat | n <= 65535

  datatype NumericDice = Const(constValue: NumericRoll) | NumberedDice(sides: NumericRoll)

  datatype TextDice = FudgeDice | Const(constValue: char)

  datatype DiceKind = NumericKind(numeric: NumericDice) | TextKind(text: TextDice)

  /** `DiceRequest`: a dice kind and how many of it to roll. */
  datatype DiceRequest = DiceRequest(kind: DiceKind, number: DiceNumber)

  /** `RollRequest`: the requests of one line, in order. */
  datatype RollRequest = RollRequest(dice: seq<DiceRequest>)

  /** `Rolls` of this revision: numeric values or text symbols. */
  datatype Rolls = NumericRolls(values: seq<NumericRoll>) | TextRolls(symbols: seq<char>)

  predicate EndsWithF(s: string) { |s| >= 1 && s[|s| - 1] == 'F' }

  predicate StartsWithPlus(s: string) { |s| >= 1 && s[0] == '+' }

  /** The pieces of the trimmed token around each 'D'. */
  function DParts(s: string): seq<string>
  {
    Split(Trim(s), 'D')
  }

  function MalformedDiceError(s: string): Error
  {
    Error(ParseDice("Expected something like 'D20' or '3D6' but got \"" + s + "\" "))
  }

  function UnknownDiceError(s: string): Error
  {
    Error(ParseDice("\"" + s + "\" does not parse to any known dice"))
  }

  /** The fudge branch: "F" alone is one dice, otherwise the text before
      the 'F' is the `u8` count. */
  function FudgeFromStr(s: string): (r: Result<DiceRequest>)
    requires EndsWithF(s)
    ensures r.Ok? ==> r.value.kind == TextKind(FudgeDice)
    ensures r.Err? ==> r.error.kind.Parse?
  {
    if |s| == 1 then Ok(DiceRequest(TextKind(FudgeDice), 1))
    else
      var n :- U8FromStr(s[..|s| - 1]);
      Ok(DiceRequest(TextKind(FudgeDice), n))
  }

  /** The constant branch: the whole token, sign included, is the `u16`
      value of one constant dice. */
  function ConstFromStr(s: string): (r: Result<DiceRequest>)
    ensures r.Ok? ==> r.value.kind.NumericKind? && r.value.kind.numeric.Const? && r.value.number == 1
    ensures r.Err? ==> r.error.kind.Parse?
  {
    var v :- U16FromStr(s);
    Ok(DiceRequest(NumericKind(NumericDice.Const(v)), 1))
  }

  /** The numbered branch as written: the first piece is always parsed as
      the `u8` count, before the last piece is parsed as the `u16` sides; a
      single piece would count one dice. */
  function NumberedFromParts(parts: seq<string>): (r: Result<DiceRequest>)
    requires 1 <= |parts| <= 2
    ensures r.Ok? ==> r.value.kind.NumericKind? && r.value.kind.numeric.NumberedDice?
    ensures r.Err? ==> r.error.kind.Parse?
  {
    var number :- U8FromStr(parts[0]);
    var sides :- U16FromStr(parts[|parts| - 1]);
    Ok(DiceRequest(NumericKind(NumberedDice(sides)), if |parts| == 1 then 1 else number))
  }

  /** The numbered branch as its comment means it: with no count piece, or
      an empty one, the count is one. */
  function NumberedFromPartsFixed(parts: seq<string>): (r: Result<DiceRequest>)
    requires 1 <= |parts| <= 2
    ensures r.Ok? ==> r.value.kind.NumericKind? && r.value.kind.numeric.NumberedDice?
    ensures r.Err? ==> r.error.kind.Parse?
    ensures |parts| == 2 && parts[0] != [] ==> r == NumberedFromParts(parts)
    ensures |parts| == 1 || parts[0] == [] ==>
              (r.Ok? <==> U16FromStr(parts[|parts| - 1]).Ok?)
              && (r.Ok? ==> r.value == DiceRequest(NumericKind(NumberedDice(U16FromStr(parts[|parts| - 1]).value)), 1))
              && (r.Err? ==> r.error == U16FromStr(parts[|parts| - 1]).error)
  {
    var number :- if |parts| == 1 || parts[0] == [] then Ok(1) else U8FromStr(parts[0]);
    var sides :- U16FromStr(parts[|parts| - 1]);
    Ok(DiceRequest(NumericKind(NumberedDice(sides)), number))
  }

  /** `DiceRequest::from_str` as written. The fudge test comes first, then
      the constant, then the numbered dice. */
  function DiceRequestFromStr(s: string): (r: Result<DiceRequest>)
    ensures r.Ok? ==> r.value.kind == TextKind(FudgeDice) || r.value.kind.NumericKind?
    ensures r.Err? ==> r.error.kind.Parse? || r.error.kind.ParseDice?
  {
    if EndsWithF(s) then FudgeFromStr(s)
    else if StartsWithPlus(s) then ConstFromStr(s)
    else if 'D' in s then
      var parts := DParts(s);
      if |parts| <= 2 then NumberedFromParts(parts) else Err(MalformedDiceError(s))
    else Err(UnknownDiceError(s))
  }

  /** `DiceRequest::from_str` with the numbered branch fixed. */
  function DiceRequestFromStrFixed(s: string): (r: Result<DiceRequest>)
    ensures r.Ok? ==> r.value.kind == TextKind(FudgeDice) || r.value.kind.NumericKind?
    ensures r.Err? ==> r.error.kind.Parse? || r.error.kind.ParseDice?
  {
    if EndsWithF(s) then FudgeFromStr(s)
    else if StartsWithPlus(s) then ConstFromStr(s)
    else if 'D' in s then
      var parts := DParts(s);
      if |parts| <= 2 then NumberedFromPartsFixed(parts) else Err(MalformedDiceError(s))
    else Err(UnknownDiceError(s))
  }

  /** What decides the outcome of both readers: a token ending in 'F' can
      only be fudge dice, one starting with '+' a constant, and otherwise a
      'D' a numbered dice; `ParseDice` is raised exactly for a token that is
      none of these or has more than one 'D'. Every other failure is an
      integer that does not parse. */
  lemma DiceRequestShape(s: string)
    ensures var r := DiceRequestFromStr(s);
      && (r.Ok? && r.value.kind == TextKind(FudgeDice) <==> r.Ok? && EndsWithF(s))
      && (r.Ok? && r.value.kind.NumericKind? && r.value.kind.numeric.Const? <==> r.Ok? && !EndsWithF(s) && StartsWithPlus(s))
      && (r.Ok? && r.value.kind.NumericKind? && r.value.kind.numeric.NumberedDice? <==>
            r.Ok? && !EndsWithF(s) && !StartsWithPlus(s) && 'D' in s)
      && (r.Err? && r.error.kind.ParseDice? <==> !EndsWithF(s) && !StartsWithPlus(s) && ('D' !in s || |DParts(s)| > 2))
      && (r.Err? && !r.error.kind.ParseDice? ==> r.error.kind.Parse?)
    ensures var r := DiceRequestFromStrFixed(s);
      && (r.Ok? && r.value.kind == TextKind(FudgeDice) <==> r.Ok? && EndsWithF(s))
      && (r.Ok? && r.value.kind.NumericKind? && r.value.kind.numeric.Const? <==> r.Ok? && !EndsWithF(s) && StartsWithPlus(s))
      && (r.Ok? && r.value.kind.NumericKind? && r.value.kind.numeric.NumberedDice? <==>
            r.Ok? && !EndsWithF(s) && !StartsWithPlus(s) && 'D' in s)
      && (r.Err? && r.error.kind.ParseDice? <==> !EndsWithF(s) && !StartsWithPlus(s) && ('D' !in s || |DParts(s)| > 2))
      && (r.Err? && !r.error.kind.ParseDice? ==> r.error.kind.Parse?)
  {
  }

  /** After trimming, a token with a 'D' always splits into at least two
      pieces, so the single-piece case of the numbered branch never runs. */
  lemma DPartsAtLeastTwo(s: string)
    requires 'D' in s
    ensures |DParts(s)| >= 2
  {
    TrimKeepsNonWhitespace(s, 'D');
    var parts := DParts(s);
    if |parts| == 1 {
      SplitPiecesAvoidSeparator(Trim(s), 'D');
      JoinSplit(Trim(s), 'D');
    }
  }

  /** The fix only turns the empty-count failure into a success: wherever
      the parser as written succeeds the fixed one gives the same request,
      and where they differ the token is a numbered dice with an empty
      count piece, which the parser as written rejects. */
  lemma FixedExtendsAsWritten(s: string)
    ensures DiceRequestFromStr(s).Ok? ==> DiceRequestFromStrFixed(s) == DiceRequestFromStr(s)
    ensures DiceRequestFromStrFixed(s) != DiceRequestFromStr(s) ==>
              !EndsWithF(s) && !StartsWithPlus(s) && 'D' in s && DParts(s)[0] == []
              && DiceRequestFromStr(s).Err? && DiceRequestFromStr(s).error.kind.Parse?
  {
    if !EndsWithF(s) && !StartsWithPlus(s) && 'D' in s {
      DPartsAtLeastTwo(s);
    }
  }

  /** The mismatch the fix repairs: "D6" is rejected as written, with the
      message of an empty integer, although the count is meant to default
      to one. */
  lemma EmptyCountRejected()
    ensures DiceRequestFromStr("D6") == Err(Error(Parse("cannot parse integer from empty string")))
    ensures DiceRequestFromStrFixed("D6") == Ok(DiceRequest(NumericKind(NumberedDice(6)), 1))
  {
    SixShown();
    CountlessNumbered(6);
  }

  lemma SixShown()
    ensures "D" + NatToString(6) == "D6"
  {
    assert NatToString(6) == "6";
  }

  /** For every side count: "D" and the sides is rejected as written, and
      the corrected reader reads it as one dice of those sides. */
  lemma CountlessNumbered(sides: NumericRoll)
    ensures DiceRequestFromStr("D" + NatToString(sides)) == Err(Error(Parse("cannot parse integer from empty string")))
    ensures DiceRequestFromStrFixed("D" + NatToString(sides)) == Ok(DiceRequest(NumericKind(NumberedDice(sides)), 1))
  {
    var shown := NatToString(sides);
    CountlessToken(sides);
    ParseNatToString(sides, U16_MAX);
    assert U16FromStr(shown) == Ok(sides);
    assert U8FromStr([]) == Err(Error(Parse("cannot parse integer from empty string")));
  }

  /** "D" and a side count take the numbered branch with an empty count
      piece. */
  lemma CountlessToken(sides: NumericRoll)
    ensures var s := "D" + NatToString(sides);
      !EndsWithF(s) && !StartsWithPlus(s) && 'D' in s && DParts(s) == [[], NatToString(sides)]
  {
    var shown := NatToString(sides);
    var s := "D" + shown;
    assert IsDigit(shown[|shown| - 1]) && s[|s| - 1] == shown[|shown| - 1];
    assert s[0] == 'D';
    forall i | 0 <= i < |s| ensures !IsWhitespace(s[i]) {
      if i > 0 {
        assert IsDigit(shown[i - 1]) && s[i] == shown[i - 1];
      }
    }
    TrimNoWhitespace(s);
    assert 'D' !in shown by { assert forall i :: 0 <= i < |shown| ==> IsDigit(shown[i]); }
    assert s == [] + ['D'] + shown;
    SplitAround([], 'D', shown);
  }

  /** `Display for DiceKind`. */
  function DiceKindToString(k: DiceKind): (s: string)
    ensures s != []
    ensures k.NumericKind? ==> (s[0] == 'D' <==> k.numeric.NumberedDice?)
  {
    match k
    case NumericKind(Const(v)) => "x" + NatToString(v)
    case NumericKind(NumberedDice(sides)) => "D" + NatToString(sides)
    case TextKind(FudgeDice) => "F"
    case TextKind(Const(c)) => [c]
  }

  /** `Display for DiceRequest`: the count, then the kind. */
  function DiceRequestToString(r: DiceRequest): (s: string)
    ensures |s| >= 2 && IsDigit(s[0])
  {
    NatToString(r.number) + DiceKindToString(r.kind)
  }

  /** The kinds whose display the reader reads back: numbered and fudge dice. */
  predicate Readable(k: DiceKind)
  {
    (k.NumericKind? && k.numeric.NumberedDice?) || k == TextKind(FudgeDice)
  }

  /** Displaying a numbered or fudge request and reading it back gives the
      request, for both readers. */
  lemma DiceRequestRoundTrip(r: DiceRequest)
    requires Readable(r.kind)
    ensures DiceRequestFromStr(DiceRequestToString(r)) == Ok(r)
    ensures DiceRequestFromStrFixed(DiceRequestToString(r)) == Ok(r)
  {
    if r.kind.TextKind? {
      assert r == DiceRequest(TextKind(FudgeDice), r.number);
      FudgeRoundTrip(r.number);
    } else {
      assert r == DiceRequest(NumericKind(NumberedDice(r.kind.numeric.sides)), r.number);
      NumberedRoundTrip(r.number, r.kind.numeric.sides);
    }
  }

  lemma FudgeRoundTrip(n: DiceNumber)
    ensures var s := DiceRequestToString(DiceRequest(TextKind(FudgeDice), n));
      DiceRequestFromStr(s) == Ok(DiceRequest(TextKind(FudgeDice), n))
      && DiceRequestFromStrFixed(s) == DiceRequestFromStr(s)
  {
    var count := NatToString(n);
    var s := count + "F";
    assert DiceRequestToString(DiceRequest(TextKind(FudgeDice), n)) == s;
    assert EndsWithF(s) && |s| >= 2;
    assert s[..|s| - 1] == count;
    ParseNatToString(n, U8_MAX);
    assert FudgeFromStr(s) == Ok(DiceRequest(TextKind(FudgeDice), n));
  }

  lemma NumberedRoundTrip(n: DiceNumber, sides: NumericRoll)
    ensures var s := DiceRequestToString(DiceRequest(NumericKind(NumberedDice(sides)), n));
      DiceRequestFromStr(s) == Ok(DiceRequest(NumericKind(NumberedDice(sides)), n))
      && DiceRequestFromStrFixed(s) == DiceRequestFromStr(s)
  {
    var count := NatToString(n);
    var shown := NatToString(sides);
    var s := count + "D" + shown;
    assert DiceRequestToString(DiceRequest(NumericKind(NumberedDice(sides)), n)) == s;
    NumberedToken(n, sides);
    NumberedPartsRead(n, sides);
    var parts := [count, shown];
    assert DParts(s) == parts;
    assert DiceRequestFromStr(s) == NumberedFromParts(parts);
    assert DiceRequestFromStrFixed(s) == NumberedFromPartsFixed(parts);
  }

  lemma NumberedPartsRead(n: DiceNumber, sides: NumericRoll)
    ensures var parts := [NatToString(n), NatToString(sides)];
      NumberedFromParts(parts) == Ok(DiceRequest(NumericKind(NumberedDice(sides)), n))
      && NumberedFromPartsFixed(parts) == NumberedFromParts(parts)
  {
    ParseNatToString(n, U8_MAX);
    ParseNatToString(sides, U16_MAX);
    assert U8FromStr(NatToString(n)) == Ok(n) && U16FromStr(NatToString(sides)) == Ok(sides);
  }

  /** A count, a 'D' and a side count take the numbered branch, with the
      count and the side count as its two pieces. */
  lemma NumberedToken(n: DiceNumber, sides: NumericRoll)
    ensures var s := NatToString(n) + "D" + NatToString(sides);
      !EndsWithF(s) && !StartsWithPlus(s) && 'D' in s && DParts(s) == [NatToString(n), NatToString(sides)]
  {
    NumberedTokenBranch(n, sides);
    NumberedTokenParts(n, sides);
  }

  lemma NumberedTokenBranch(n: DiceNumber, sides: NumericRoll)
    ensures var s := NatToString(n) + "D" + NatToString(sides);
      !EndsWithF(s) && !StartsWithPlus(s) && 'D' in s
  {
    var count := NatToString(n);
    var shown := NatToString(sides);
    var s := count + "D" + shown;
    assert IsDigit(count[0]) && IsDigit(shown[|shown| - 1]);
    assert s[0] == count[0] && s[|s| - 1] == shown[|shown| - 1];
    assert s[|count|] == 'D';
  }

  lemma NumberedTokenParts(n: DiceNumber, sides: NumericRoll)
    ensures var s := NatToString(n) + "D" + NatToString(sides);
      DParts(s) == [NatToString(n), NatToString(sides)]
  {
    var count := NatToString(n);
    var shown := NatToString(sides);
    var s := count + "D" + shown;
    NumberedTokenSolid(n, sides);
    TrimNoWhitespace(s);
    NumberedTokenSplit(count, shown);
  }

  lemma NumberedTokenSplit(count: string, shown: string)
    requires AllDigits(count) && AllDigits(shown)
    ensures Split(count + "D" + shown, 'D') == [count, shown]
  {
    assert 'D' !in count by { assert forall i :: 0 <= i < |count| ==> IsDigit(count[i]); }
    assert 'D' !in shown by { assert forall i :: 0 <= i < |shown| ==> IsDigit(shown[i]); }
    SplitAround(count, 'D', shown);
  }

  lemma NumberedTokenSolid(n: DiceNumber, sides: NumericRoll)
    ensures var s := NatToString(n) + "D" + NatToString(sides);
      forall i :: 0 <= i < |s| ==> !IsWhitespace(s[i])
  {
    var count := NatToString(n);
    var shown := NatToString(sides);
    var s := count + "D" + shown;
    forall i | 0 <= i < |s| ensures !IsWhitespace(s[i]) {
      if i < |count| {
        assert IsDigit(count[i]) && s[i] == count[i];
      } else if i > |count| {
        assert IsDigit(shown[i - |count| - 1]) && s[i] == shown[i - |count| - 1];
      } else {
        assert s[i] == 'D';
      }
    }
  }

  /** A constant request displays as count, 'x', value, which the reader
      takes for no known dice: the constant display does not read back. */
  lemma ConstDisplayNotReadable(v: NumericRoll)
    ensures DiceRequestFromStrFixed(DiceRequestToString(DiceRequest(NumericKind(NumericDice.Const(v)), 1)))
         == Err(UnknownDiceError("1x" + NatToString(v)))
  {
    var s := DiceRequestToString(DiceRequest(NumericKind(NumericDice.Const(v)), 1));
    assert NatToString(1) == "1";
    assert s == "1x" + NatToString(v);
    NatToStringCanonical(v);
    assert s[|s| - 1] in NatToString(v);
    assert 'D' !in s by {
      forall i | 2 <= i < |s| ensures s[i] != 'D' { assert s[i] == NatToString(v)[i - 2]; }
    }
  }

  /** A '+' token is a constant dice holding the value after the sign. */
  lemma ConstTokenMeaning(v: NumericRoll)
    ensures DiceRequestFromStr("+" + NatToString(v)) == Ok(DiceRequest(NumericKind(NumericDice.Const(v)), 1))
  {
    ParsePlusNatToString(v, U16_MAX);
    var s := "+" + NatToString(v);
    assert s[|s| - 1] == NatToString(v)[|NatToString(v)| - 1];
  }

  /** The reader's cases on numbered and fudge tokens. */
  lemma DiceRequestExamples()
    ensures DiceRequestFromStr("5D6") == Ok(DiceRequest(NumericKind(NumberedDice(6)), 5))
    ensures DiceRequestFromStr("10F") == Ok(DiceRequest(TextKind(FudgeDice), 10))
    ensures DiceRequestFromStr("F") == Ok(DiceRequest(TextKind(FudgeDice), 1))
  {
    var five := DiceRequest(NumericKind(NumberedDice(6)), 5);
    assert DiceRequestToString(five) == "5D6" by {
      assert NatToString(5) == "5" && NatToString(6) == "6";
    }
    DiceRequestRoundTrip(five);
    var ten := DiceRequest(TextKind(FudgeDice), 10);
    assert DiceRequestToString(ten) == "10F" by {
      assert NatToString(10) == "10";
    }
    DiceRequestRoundTrip(ten);
  }

  /** The reader's cases on constant tokens: the sign is needed once and
      only in front. */
  lemma ConstTokenExamples()
    ensures DiceRequestFromStr("+142") == Ok(DiceRequest(NumericKind(NumericDice.Const(142)), 1))
    ensures DiceRequestFromStr("+") == Err(Error(Parse("cannot parse integer from empty string")))
    ensures DiceRequestFromStr("+8+") == Err(Error(Parse("invalid digit found in string")))
  {
    assert "+" + NatToString(142) == "+142";
    ConstTokenMeaning(142);
    assert UnsignedDigits("+") == [];
    assert UnsignedDigits("+8+") == "8+";
  }

  lemma SplitD8D()
    ensures DParts("D8D") == [[], "8", []]
  {
    TrimD8D();
    SplitD8DPieces();
  }

  lemma TrimD8D()
    ensures Trim("D8D") == "D8D"
  {
    TrimUntouched("D8D");
  }

  lemma SplitD8DPieces()
    ensures Split("D8D", 'D') == [[], "8", []]
  {
    var s: string := "D8D";
    assert s == [] + ['D'] + "8D";
    SplitCons([], 'D', "8D");
    assert "8D" == "8" + ['D'] + [];
    SplitCons("8", 'D', []);
    assert Split([], 'D') == [[]];
  }

  /** A token with two 'D's is rejected as malformed. */
  lemma TwoDsRejected()
    ensures DiceRequestFromStr("D8D") == Err(MalformedDiceError("D8D"))
  {
    SplitD8D();
    var s := "D8D";
    assert !EndsWithF(s) && !StartsWithPlus(s) && s[0] == 'D';
  }

  /** Lower-case 'd' is no dice letter. */
  lemma LowerCaseRejected()
    ensures DiceRequestFromStr("3d6") == Err(UnknownDiceError("3d6"))
  {
    var s := "3d6";
    assert !EndsWithF(s) && !StartsWithPlus(s);
    assert 'D' !in s by {
      assert forall i | 0 <= i < |s| :: s[i] != 'D';
    }
  }

  /** Each token read in order with the given token reader; the first
      failing token's error is the result. */
  function ParseTokens(read: string -> Result<DiceRequest>, tokens: seq<string>): (r: Result<seq<DiceRequest>>)
    ensures r.Ok? ==> |r.value| == |tokens|
                      && forall i :: 0 <= i < |tokens| ==> read(tokens[i]) == Ok(r.value[i])
    ensures r.Err? ==> exists i :: 0 <= i < |tokens| && read(tokens[i]) == Err(r.error)
                                   && forall j :: 0 <= j < i ==> read(tokens[j]).Ok?
  {
    if tokens == [] then Ok([])
    else
      var first :- read(tokens[0]);
      var rest :- ParseTokens(read, tokens[1..]);
      Ok([first] + rest)
  }

  /** The space-separated pieces of the trimmed line. */
  function LineTokens(s: string): seq<string>
  {
    Split(Trim(s), ' ')
  }

  /** `RollRequest::from_str` as written: trim, split on single spaces, read
      every piece with the token reader as written. An empty piece (two
      spaces in a row) is a token like any other and fails. */
  function RollRequestFromStr(s: string): (r: Result<RollRequest>)
    ensures r.Ok? ==> |r.value.dice| == |LineTokens(s)|
  {
    var dice :- ParseTokens(DiceRequestFromStr, LineTokens(s));
    Ok(RollRequest(dice))
  }

  /** `RollRequest::from_str` over the corrected token reader. */
  function RollRequestFromStrFixed(s: string): (r: Result<RollRequest>)
    ensures r.Ok? ==> |r.value.dice| == |LineTokens(s)|
  {
    var dice :- ParseTokens(DiceRequestFromStrFixed, LineTokens(s));
    Ok(RollRequest(dice))
  }

  /** A token the two readers may disagree on: a numbered dice whose count
      piece is empty. */
  predicate CountlessNumberedToken(t: string)
  {
    !EndsWithF(t) && !StartsWithPlus(t) && 'D' in t && DParts(t)[0] == []
  }

  /** The two line readers agree wherever the line reader as written
      succeeds, and on every line none of whose tokens is a numbered dice
      without a count. */
  lemma FixedLineExtendsAsWritten(s: string)
    ensures RollRequestFromStr(s).Ok? ==> RollRequestFromStrFixed(s) == RollRequestFromStr(s)
    ensures (forall i :: 0 <= i < |LineTokens(s)| ==> !CountlessNumberedToken(LineTokens(s)[i])) ==>
              RollRequestFromStrFixed(s) == RollRequestFromStr(s)
  {
    var tokens := LineTokens(s);
    if RollRequestFromStr(s).Ok? || forall i :: 0 <= i < |tokens| ==> !CountlessNumberedToken(tokens[i]) {
      forall i | 0 <= i < |tokens| ensures DiceRequestFromStrFixed(tokens[i]) == DiceRequestFromStr(tokens[i]) {
        FixedExtendsAsWritten(tokens[i]);
      }
      ReadersAgree(tokens);
    }
  }

  lemma {:induction false} ReadersAgree(tokens: seq<string>)
    requires forall i :: 0 <= i < |tokens| ==> DiceRequestFromStrFixed(tokens[i]) == DiceRequestFromStr(tokens[i])
    ensures ParseTokens(DiceRequestFromStrFixed, tokens) == ParseTokens(DiceRequestFromStr, tokens)
    decreases |tokens|
  {
    if tokens != [] {
      ReadersAgree(tokens[1..]);
    }
  }

  /** The line "D6" fails as written with the empty-count error, and reads
      as one D6 under the corrected reader. */
  lemma CountlessLine()
    ensures RollRequestFromStr("D6") == Err(Error(Parse("cannot parse integer from empty string")))
    ensures RollRequestFromStrFixed("D6") == Ok(RollRequest([DiceRequest(NumericKind(NumberedDice(6)), 1)]))
  {
    OneTokenLine("D6");
    EmptyCountRejected();
    TokensRead(DiceRequestFromStrFixed, ["D6"], [DiceRequest(NumericKind(NumberedDice(6)), 1)]);
  }

  lemma OneTokenLine(s: string)
    requires s != [] && ' ' !in s && NoWhitespace(s)
    ensures LineTokens(s) == [s]
  {
    TrimNoWhitespace(s);
    SplitNoSeparator(s, ' ');
  }

  /** `Display for Rolls`: the values separated by single spaces. */
  function RollsToString(r: Rolls): (s: string)
    ensures s == [] <==> (r.NumericRolls? && r.values == []) || (r.TextRolls? && r.symbols == [])
  {
    match r
    case NumericRolls(values) =>
      Join(seq(|values|, i requires 0 <= i < |values| => NatToString(values[i])), " ")
    case TextRolls(symbols) =>
      Join(seq(|symbols|, i requires 0 <= i < |symbols| => [symbols[i]]), " ")
  }

  /** Numeric rolls read back: the space-separated pieces parse as `u16`
      to the rolled values, in order. */
  lemma NumericRollsReadBack(values: seq<NumericRoll>)
    requires values != []
    ensures var pieces := Split(RollsToString(NumericRolls(values)), ' ');
      |pieces| == |values| && forall i :: 0 <= i < |values| ==> U16FromStr(pieces[i]) == Ok(values[i])
  {
    var shown := seq(|values|, i requires 0 <= i < |values| => NatToString(values[i]));
    forall k | 0 <= k < |shown| ensures ' ' !in shown[k] {
      assert AllDigits(shown[k]);
    }
    SplitJoin(shown, ' ');
    forall i | 0 <= i < |values| ensures U16FromStr(shown[i]) == Ok(values[i]) {
      ParseNatToString(values[i], U16_MAX);
    }
  }

  /** Text rolls read back: the pieces are the symbols one by one, when no
      symbol is a space. */
  lemma TextRollsReadBack(symbols: seq<char>)
    requires symbols != [] && ' ' !in symbols
    ensures var pieces := Split(RollsToString(TextRolls(symbols)), ' ');
      |pieces| == |symbols| && forall i :: 0 <= i < |symbols| ==> pieces[i] == [symbols[i]]
  {
    var shown := seq(|symbols|, i requires 0 <= i < |symbols| => [symbols[i]]);
    forall k | 0 <= k < |shown| ensures ' ' !in shown[k] {
      assert shown[k] == [symbols[k]];
    }
    SplitJoin(shown, ' ');
  }

  /** A line of readable requests written with single spaces reads back as
      the same requests in the same order. */
  lemma RollRequestRoundTrip(requests: seq<DiceRequest>)
    requires requests != []
    requires forall i :: 0 <= i < |requests| ==> Readable(requests[i].kind)
    ensures var line := Join(seq(|requests|, i requires 0 <= i < |requests| => DiceRequestToString(requests[i])), " ");
      RollRequestFromStr(line) == Ok(RollRequest(requests))
      && RollRequestFromStrFixed(line) == Ok(RollRequest(requests))
  {
    var shown := seq(|requests|, i requires 0 <= i < |requests| => DiceRequestToString(requests[i]));
    var line := Join(shown, " ");
    forall k | 0 <= k < |shown| ensures ' ' !in shown[k] && NoWhitespace(shown[k]) && shown[k] != [] {
      DisplayNoWhitespace(requests[k]);
    }
    JoinEnds(shown, " ");
    TrimUntouched(line);
    SplitJoin(shown, ' ');
    forall i | 0 <= i < |requests| ensures DiceRequestFromStr(shown[i]) == Ok(requests[i]) {
      DiceRequestRoundTrip(requests[i]);
    }
    TokensRead(DiceRequestFromStr, shown, requests);
    FixedLineExtendsAsWritten(line);
  }

  predicate NoWhitespace(s: string)
  {
    forall i :: 0 <= i < |s| ==> !IsWhitespace(s[i])
  }

  lemma DisplayNoWhitespace(r: DiceRequest)
    requires Readable(r.kind)
    ensures NoWhitespace(DiceRequestToString(r)) && ' ' !in DiceRequestToString(r)
    ensures DiceRequestToString(r) != []
  {
    var count := NatToString(r.number);
    var s := DiceRequestToString(r);
    forall i | 0 <= i < |s| ensures !IsWhitespace(s[i]) && s[i] != ' ' {
      if i < |count| {
        assert s[i] == count[i];
      } else if r.kind.NumericKind? && i > |count| {
        assert s[i] == NatToString(r.kind.numeric.sides)[i - |count| - 1];
      }
    }
  }

  lemma {:induction false} TokensRead(read: string -> Result<DiceRequest>, tokens: seq<string>, requests: seq<DiceRequest>)
    requires |tokens| == |requests|
    requires forall i :: 0 <= i < |tokens| ==> read(tokens[i]) == Ok(requests[i])
    ensures ParseTokens(read, tokens) == Ok(requests)
    decreases |tokens|
  {
    if tokens != [] {
      TokensRead(read, tokens[1..], requests[1..]);
      assert requests == [requests[0]] + requests[1..];
    }
  }
}
