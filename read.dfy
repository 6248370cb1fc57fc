/** Reading a roll request (src/io/read.rs). The grammar's tokeniser is not
    part of this model: its output is taken as given, one item per dice,
    action or aggregation rule, each with the inner pairs and texts the
    grammar matched. What is modelled is what the reader does with them:
    the fudge-symbol parser, the dice and action readers, the collection
    loop, and the assembly of at most one numeric and one fudge session. */
module Read {
  import opened Text
  import opened Errors
  import opened Dice
  import Write

  datatype Option<T> = None | Some(value: T)

  /** The actions this revision of the reader builds, `ExplodeFudge`
      included. */
  datatype Action =
    | Total
    | FlipFlop
    | MultiplyBy(factor: NumericRoll)
    | RerollNumeric(rerolled: NumericRoll)
    | RerollFudge(fudgeRerolled: FudgeRoll)
    | Explode(trigger: NumericRoll)
    | ExplodeFudge(fudgeTrigger: FudgeRoll)

  /** The aggregations: counting the values. */
  datatype Aggregation = CountValues

  // ---------------------------------------------------------------------
  // FudgeRoll::from_str

  function FudgeRollError(s: string): Error
  {
    Error(Parse("Can't read '" + s + "' as a fudge roll value"))
  }

  /** "+" is plus, "-" minus, "0" blank; any other text is a parse error
      that quotes it. */
  function FudgeRollFromStr(s: string): (r: Result<FudgeRoll>)
    ensures r.Ok? <==> s == "+" || s == "-" || s == "0"
    ensures r.Err? ==> r.error == FudgeRollError(s)
  {
    if s == "+" then Ok(Plus)
    else if s == "-" then Ok(Minus)
    else if s == "0" then Ok(Blank)
    else Err(FudgeRollError(s))
  }

  /** Reading a fudge roll's symbol gives the roll back. */
  lemma FudgeRollRoundTrip(f: FudgeRoll)
    ensures FudgeRollFromStr(Write.FudgeRollToString(f)) == Ok(f)
  {
  }

  /** A text that reads as a fudge roll is that roll's symbol. */
  lemma FudgeRollReadIsSymbol(s: string)
    requires FudgeRollFromStr(s).Ok?
    ensures Write.FudgeRollToString(FudgeRollFromStr(s).value) == s
  {
  }

  // ---------------------------------------------------------------------
  // Dice rules

  /** The inner pairs of a dice rule: a `dice_number` or a `dice_sides`,
      with the text it matched. */
  datatype DiceToken = DiceNumberToken(text: string) | DiceSidesToken(text: string)

  /** The reader unwraps each token's parse: a count must fit a `u8`, a
      side count or constant a `u16`, or the reader panics. */
  predicate TokenParses(t: DiceToken)
  {
    match t
    case DiceNumberToken(s) => ParseU8(s).IntOk?
    case DiceSidesToken(s) => ParseU16(s).IntOk?
  }

  predicate AllParse(inner: seq<DiceToken>)
  {
    forall i :: 0 <= i < |inner| ==> TokenParses(inner[i])
  }

  function TokenValue(t: DiceToken): (v: nat)
    requires TokenParses(t)
    ensures t.DiceNumberToken? ==> v <= U8_MAX
    ensures v <= U16_MAX
  {
    match t
    case DiceNumberToken(s) => ParseU8(s).value
    case DiceSidesToken(s) => ParseU16(s).value
  }

  /** The value of the last count token (`counts`) or the last sides token
      (`!counts`), or the default when there is none. */
  function LastOf(inner: seq<DiceToken>, counts: bool, default: nat): (v: nat)
    requires AllParse(inner)
    ensures counts && default <= U8_MAX ==> v <= U8_MAX
    ensures default <= U16_MAX ==> v <= U16_MAX
    decreases |inner|
  {
    if inner == [] then default
    else
      var t := inner[|inner| - 1];
      if t.DiceNumberToken? == counts then TokenValue(t) else LastOf(inner[..|inner| - 1], counts, default)
  }

  /** Without a token of the kind the default stands; otherwise the last
      such token decides, whatever comes before it. */
  lemma LastOfMeaning(inner: seq<DiceToken>, counts: bool, default: nat)
    requires AllParse(inner)
    ensures (forall i :: 0 <= i < |inner| ==> inner[i].DiceNumberToken? != counts) ==> LastOf(inner, counts, default) == default
    ensures forall i :: 0 <= i < |inner| && inner[i].DiceNumberToken? == counts
                        && (forall j :: i < j < |inner| ==> inner[j].DiceNumberToken? != counts)
                        ==> LastOf(inner, counts, default) == TokenValue(inner[i])
  {
    forall i | 0 <= i < |inner| && inner[i].DiceNumberToken? == counts
               && (forall j :: i < j < |inner| ==> inner[j].DiceNumberToken? != counts)
      ensures LastOf(inner, counts, default) == TokenValue(inner[i])
    {
      LastOfAt(inner, counts, default, i);
    }
    if forall i :: 0 <= i < |inner| ==> inner[i].DiceNumberToken? != counts {
      LastOfNone(inner, counts, default);
    }
  }

  /** The parses of a prefix of the tokens. */
  lemma AllParseInit(inner: seq<DiceToken>)
    requires AllParse(inner) && inner != []
    ensures AllParse(inner[..|inner| - 1])
  {
    var init := inner[..|inner| - 1];
    forall i | 0 <= i < |init| ensures TokenParses(init[i]) {
      assert init[i] == inner[i];
    }
  }

  lemma {:induction false} LastOfAt(inner: seq<DiceToken>, counts: bool, default: nat, i: nat)
    requires AllParse(inner) && i < |inner| && inner[i].DiceNumberToken? == counts
    requires forall j :: i < j < |inner| ==> inner[j].DiceNumberToken? != counts
    ensures LastOf(inner, counts, default) == TokenValue(inner[i])
    decreases |inner|
  {
    var last := |inner| - 1;
    if i < last {
      var init := inner[..last];
      AllParseInit(inner);
      assert inner[last].DiceNumberToken? != counts;
      assert LastOf(inner, counts, default) == LastOf(init, counts, default);
      assert forall j :: i < j < |init| ==> init[j] == inner[j];
      LastOfAt(init, counts, default, i);
      assert init[i] == inner[i];
    }
  }

  lemma {:induction false} LastOfNone(inner: seq<DiceToken>, counts: bool, default: nat)
    requires AllParse(inner)
    requires forall i :: 0 <= i < |inner| ==> inner[i].DiceNumberToken? != counts
    ensures LastOf(inner, counts, default) == default
    decreases |inner|
  {
    if inner != [] {
      var init := inner[..|inner| - 1];
      AllParseInit(inner);
      assert forall i :: 0 <= i < |init| ==> init[i] == inner[i];
      LastOfNone(init, counts, default);
    }
  }

  /** The request a `numbered_dice` rule reads as: count and sides from the
      last tokens of their kind, 1 by default. */
  function NumberedRequest(inner: seq<DiceToken>): NumericRollRequest
    requires AllParse(inner)
  {
    RollRequest(LastOf(inner, true, 1), NumberedDice(LastOf(inner, false, 1)))
  }

  /** `parse_numbered_dice`: both values start at 1 and each token
      overwrites its own. */
  method ParseNumberedDice(inner: seq<DiceToken>) returns (r: Result<NumericRollRequest>)
    requires AllParse(inner)
    ensures r == Ok(NumberedRequest(inner))
  {
    var diceNumber: DiceNumber := 1;
    var diceSides: NumericRoll := 1;
    for i := 0 to |inner|
      invariant diceNumber == LastOf(inner[..i], true, 1)
      invariant diceSides == LastOf(inner[..i], false, 1)
    {
      assert inner[..i + 1][..i] == inner[..i];
      match inner[i] {
        case DiceNumberToken(s) =>
          diceNumber := ParseU8(s).value;
        case DiceSidesToken(s) =>
          diceSides := ParseU16(s).value;
      }
    }
    assert inner[..|inner|] == inner;
    r := Ok(RollRequest(diceNumber, NumberedDice(diceSides)));
  }

  /** A fudge rule holds count tokens only; the grammar gives nothing
      else. */
  predicate FudgeTokens(inner: seq<DiceToken>)
  {
    AllParse(inner) && forall i :: 0 <= i < |inner| ==> inner[i].DiceNumberToken?
  }

  function FudgeRequest(inner: seq<DiceToken>): FudgeRollRequest
    requires FudgeTokens(inner)
  {
    RollRequest(LastOf(inner, true, 1), FudgeDice.FudgeDice)
  }

  /** `parse_fudge_dice`: the count starts at 1 and each token overwrites
      it. */
  method ParseFudgeDice(inner: seq<DiceToken>) returns (r: Result<FudgeRollRequest>)
    requires FudgeTokens(inner)
    ensures r == Ok(FudgeRequest(inner))
  {
    var diceNumber: DiceNumber := 1;
    for i := 0 to |inner|
      invariant diceNumber == LastOf(inner[..i], true, 1)
    {
      assert inner[..i + 1][..i] == inner[..i];
      diceNumber := ParseU8(inner[i].text).value;
    }
    assert inner[..|inner|] == inner;
    r := Ok(RollRequest(diceNumber, FudgeDice.FudgeDice));
  }

  /** A constant rule's first token is its value. */
  predicate ConstTokens(inner: seq<DiceToken>)
  {
    inner != [] && inner[0].DiceSidesToken? && TokenParses(inner[0])
  }

  /** `parse_const_numeric_dice`: one constant dice whose value is the
      decimal value of the first token's digits. */
  function ParseConstNumericDice(inner: seq<DiceToken>): (r: Result<NumericRollRequest>)
    requires ConstTokens(inner)
    ensures r.Ok? && r.value.number == 1
    ensures var digits := UnsignedDigits(inner[0].text);
      && AllDigits(digits) && DecimalValue(digits) <= U16_MAX
      && r.value.dice == NumericDice.ConstDice(DecimalValue(digits))
  {
    ParseUnsignedMeaning(inner[0].text, U16_MAX);
    Ok(RollRequest(1, NumericDice.ConstDice(ParseU16(inner[0].text).value)))
  }

  /** The reader's tests: "5d6", "8D3" and "D20" as numbered dice. */
  lemma NumberedExamples()
    ensures NumberedRequest([DiceNumberToken("5"), DiceSidesToken("6")]) == RollRequest(5, NumberedDice(6))
    ensures NumberedRequest([DiceNumberToken("8"), DiceSidesToken("3")]) == RollRequest(8, NumberedDice(3))
    ensures NumberedRequest([DiceSidesToken("20")]) == RollRequest(1, NumberedDice(20))
  {
    assert NatToString(20) == "20";
    ParseNatToString(20, U16_MAX);
  }

  /** "F" and "10F" as fudge dice. */
  lemma FudgeExamples()
    ensures FudgeRequest([]) == RollRequest(1, FudgeDice.FudgeDice)
    ensures FudgeRequest([DiceNumberToken("10")]) == RollRequest(10, FudgeDice.FudgeDice)
  {
    assert NatToString(10) == "10";
    ParseNatToString(10, U8_MAX);
  }

  /** "+5" and "+142" as constant dice. */
  lemma ConstExamples()
    ensures ParseConstNumericDice([DiceSidesToken("5")]).value == RollRequest(1, NumericDice.ConstDice(5))
    ensures ParseConstNumericDice([DiceSidesToken("142")]).value == RollRequest(1, NumericDice.ConstDice(142))
  {
    assert NatToString(142) == "142";
    ParseNatToString(142, U16_MAX);
    ParseNatToString(5, U16_MAX);
  }

  // ---------------------------------------------------------------------
  // Action rules

  /** The value inside an action rule: a `num_roll_value`, a
      `fudge_roll_value` or a `factor`, with the text it matched. */
  datatype ValueToken = NumRollValue(text: string) | FudgeRollValue(text: string) | Factor(text: string)

  /** `parse_reroll_action`: a numeric value must parse as a `u16`, a fudge
      value as a fudge symbol; the error of the parse is the reader's. */
  function ParseRerollAction(inner: seq<ValueToken>): (r: Result<Action>)
    requires inner != [] && !inner[0].Factor?
    ensures inner[0].NumRollValue? ==>
      && (r.Ok? <==> ParseU16(inner[0].text).IntOk?)
      && (r.Ok? ==> r.value == RerollNumeric(ParseU16(inner[0].text).value))
      && (r.Err? ==> r.error == FromParseInt(ParseU16(inner[0].text).kind))
    ensures inner[0].FudgeRollValue? ==>
      && (r.Ok? <==> FudgeRollFromStr(inner[0].text).Ok?)
      && (r.Ok? ==> r.value == RerollFudge(FudgeRollFromStr(inner[0].text).value))
      && (r.Err? ==> r.error == FudgeRollError(inner[0].text))
  {
    match inner[0]
    case NumRollValue(s) =>
      var v :- U16FromStr(s);
      Ok(RerollNumeric(v))
    case FudgeRollValue(s) =>
      var f :- FudgeRollFromStr(s);
      Ok(RerollFudge(f))
  }

  /** The explode reader unwraps its parses: the value must read. */
  predicate ExplodeTokens(inner: seq<ValueToken>)
  {
    && inner != []
    && match inner[0]
       case NumRollValue(s) => ParseU16(s).IntOk?
       case FudgeRollValue(s) => FudgeRollFromStr(s).Ok?
       case Factor(_) => false
  }

  /** `parse_explode_action`: a numeric trigger or a fudge trigger. */
  function ParseExplodeAction(inner: seq<ValueToken>): (r: Result<Action>)
    requires ExplodeTokens(inner)
    ensures r.Ok?
    ensures inner[0].NumRollValue? ==> r.value == Explode(ParseU16(inner[0].text).value)
    ensures inner[0].FudgeRollValue? ==> r.value == ExplodeFudge(FudgeRollFromStr(inner[0].text).value)
  {
    match inner[0]
    case NumRollValue(s) => Ok(Explode(ParseU16(s).value))
    case FudgeRollValue(s) => Ok(ExplodeFudge(FudgeRollFromStr(s).value))
  }

  /** `parse_multiply_action`: the factor must parse as a `u16`. */
  function ParseMultiplyAction(inner: seq<ValueToken>): (r: Result<Action>)
    requires inner != [] && inner[0].Factor?
    ensures r.Ok? <==> ParseU16(inner[0].text).IntOk?
    ensures r.Ok? ==> r.value == MultiplyBy(ParseU16(inner[0].text).value)
    ensures r.Err? ==> r.error == FromParseInt(ParseU16(inner[0].text).kind)
  {
    var v :- U16FromStr(inner[0].text);
    Ok(MultiplyBy(v))
  }

  /** An action rule: the keywords, or a rule with a value inside. */
  datatype ActionToken =
    | ActionSum
    | ActionFlip
    | ActionTotal
    | ActionMult(multInner: seq<ValueToken>)
    | ActionReroll(rerollInner: seq<ValueToken>)
    | ActionExplode(explodeInner: seq<ValueToken>)

  predicate ActionTokens(t: ActionToken)
  {
    match t
    case ActionMult(inner) => inner != [] && inner[0].Factor?
    case ActionReroll(inner) => inner != [] && !inner[0].Factor?
    case ActionExplode(inner) => ExplodeTokens(inner)
    case _ => true
  }

  /** The action a rule reads as. The sum keyword is read as the total, as
      the total keyword is. */
  function ActionOf(t: ActionToken): (r: Result<Action>)
    requires ActionTokens(t)
    ensures t.ActionSum? || t.ActionTotal? ==> r == Ok(Total)
    ensures t.ActionFlip? ==> r == Ok(FlipFlop)
    ensures r.Ok? && r.value.MultiplyBy? ==> t.ActionMult?
    ensures r.Ok? && (r.value.RerollNumeric? || r.value.RerollFudge?) ==> t.ActionReroll?
    ensures r.Ok? && (r.value.Explode? || r.value.ExplodeFudge?) ==> t.ActionExplode?
    ensures r.Err? ==> r.error.kind.Parse?
  {
    match t
    case ActionSum => Ok(Total)
    case ActionFlip => Ok(FlipFlop)
    case ActionTotal => Ok(Total)
    case ActionMult(inner) => ParseMultiplyAction(inner)
    case ActionReroll(inner) => ParseRerollAction(inner)
    case ActionExplode(inner) => ParseExplodeAction(inner)
  }

  /** Reroll and explode tell numeric values from fudge symbols by the
      token's kind. */
  lemma RerollNumericExample()
    ensures ActionOf(ActionReroll([NumRollValue("1")])) == Ok(RerollNumeric(1))
  {
    ParseNatToString(1, U16_MAX);
    assert NatToString(1) == "1";
  }

  lemma RerollFudgeExample()
    ensures ActionOf(ActionReroll([FudgeRollValue("-")])) == Ok(RerollFudge(Minus))
  {
  }

  lemma ExplodeFudgeExample()
    ensures ActionOf(ActionExplode([FudgeRollValue("+")])) == Ok(ExplodeFudge(Plus))
  {
  }

  /** A symbol that is no fudge roll fails the reroll with the reader's
      message. */
  lemma RerollFudgeErrorExample()
    ensures ActionOf(ActionReroll([FudgeRollValue("x")])) == Err(Error(Parse("Can't read 'x' as a fudge roll value")))
  {
    assert FudgeRollFromStr("x") == Err(FudgeRollError("x"));
    FudgeRollErrorText();
  }

  lemma FudgeRollErrorText()
    ensures FudgeRollError("x") == Error(Parse("Can't read 'x' as a fudge roll value"))
  {
    var front := "Can't read '" + "x";
    assert front == "Can't read 'x";
    assert front + "' as a fudge roll value" == "Can't read 'x' as a fudge roll value";
  }

  // ---------------------------------------------------------------------
  // Collecting the rules

  /** A dice rule with its inner pairs. */
  datatype DiceItem =
    | FudgeDiceItem(fudgeInner: seq<DiceToken>)
    | ConstDiceItem(constInner: seq<DiceToken>)
    | NumberedDiceItem(numberedInner: seq<DiceToken>)

  /** The rules of a request, in order, dice and action groups flattened. */
  datatype Item = DiceRule(dice: DiceItem) | ActionRule(action: ActionToken) | CountAggregation | EndOfInput

  predicate ItemTokens(item: Item)
  {
    match item
    case DiceRule(FudgeDiceItem(inner)) => FudgeTokens(inner)
    case DiceRule(ConstDiceItem(inner)) => ConstTokens(inner)
    case DiceRule(NumberedDiceItem(inner)) => AllParse(inner)
    case ActionRule(t) => ActionTokens(t)
    case _ => true
  }

  predicate AllItemTokens(items: seq<Item>)
  {
    forall i :: 0 <= i < |items| ==> ItemTokens(items[i])
  }

  predicate IsNumericDice(item: Item)
  {
    item.DiceRule? && !item.dice.FudgeDiceItem?
  }

  predicate IsFudgeDice(item: Item)
  {
    item.DiceRule? && item.dice.FudgeDiceItem?
  }

  /** The numeric requests, in the order of their rules. */
  function NumericDiceOf(items: seq<Item>): (r: seq<NumericRollRequest>)
    requires AllItemTokens(items)
    decreases |items|
  {
    if items == [] then []
    else
      var init := NumericDiceOf(items[..|items| - 1]);
      match items[|items| - 1]
      case DiceRule(NumberedDiceItem(inner)) => init + [NumberedRequest(inner)]
      case DiceRule(ConstDiceItem(inner)) => init + [ParseConstNumericDice(inner).value]
      case _ => init
  }

  /** The fudge requests, in the order of their rules. */
  function FudgeDiceOf(items: seq<Item>): (r: seq<FudgeRollRequest>)
    requires AllItemTokens(items)
    decreases |items|
  {
    if items == [] then []
    else
      var init := FudgeDiceOf(items[..|items| - 1]);
      match items[|items| - 1]
      case DiceRule(FudgeDiceItem(inner)) => init + [FudgeRequest(inner)]
      case _ => init
  }

  function AggregationOf(items: seq<Item>): Option<Aggregation>
  {
    if exists i :: 0 <= i < |items| && items[i].CountAggregation? then Some(CountValues) else None
  }

  /** The actions in order, or the error of the first that fails to read. */
  function ActionsOf(items: seq<Item>): (r: Result<seq<Action>>)
    requires AllItemTokens(items)
    decreases |items|
  {
    if items == [] then Ok([])
    else
      var acts :- ActionsOf(items[..|items| - 1]);
      var last := items[|items| - 1];
      if last.ActionRule? then
        var a :- ActionOf(last.action);
        Ok(acts + [a])
      else Ok(acts)
  }

  /** No numeric requests exactly when no numeric dice rule was read. */
  lemma {:induction false} NumericDiceOfEmpty(items: seq<Item>)
    requires AllItemTokens(items)
    ensures NumericDiceOf(items) == [] <==> forall i :: 0 <= i < |items| ==> !IsNumericDice(items[i])
    decreases |items|
  {
    if items != [] {
      var init := items[..|items| - 1];
      NumericDiceOfEmpty(init);
      assert forall i :: 0 <= i < |init| ==> init[i] == items[i];
    }
  }

  lemma {:induction false} FudgeDiceOfEmpty(items: seq<Item>)
    requires AllItemTokens(items)
    ensures FudgeDiceOf(items) == [] <==> forall i :: 0 <= i < |items| ==> !IsFudgeDice(items[i])
    decreases |items|
  {
    if items != [] {
      var init := items[..|items| - 1];
      FudgeDiceOfEmpty(init);
      assert forall i :: 0 <= i < |init| ==> init[i] == items[i];
    }
  }

  /** Once an action fails, the rules after it do not matter. */
  lemma {:induction false} ActionsOfErrSticks(items: seq<Item>, n: nat)
    requires AllItemTokens(items) && n <= |items|
    requires ActionsOf(items[..n]).Err?
    ensures ActionsOf(items) == ActionsOf(items[..n])
    decreases |items| - n
  {
    if n < |items| {
      assert items[..n + 1][..n] == items[..n];
      ActionsOfErrSticks(items, n + 1);
    } else {
      assert items[..n] == items;
    }
  }

  /** Reading fails exactly when some action rule fails, and then with the
      error of the first one that does. */
  lemma {:induction false} ActionsOfFirstError(items: seq<Item>)
    requires AllItemTokens(items)
    ensures ActionsOf(items).Ok? <==>
      forall i :: 0 <= i < |items| && items[i].ActionRule? ==> ActionOf(items[i].action).Ok?
    ensures ActionsOf(items).Err? ==>
      exists i :: 0 <= i < |items| && items[i].ActionRule?
        && ActionOf(items[i].action) == Err(ActionsOf(items).error)
        && forall j :: 0 <= j < i && items[j].ActionRule? ==> ActionOf(items[j].action).Ok?
    decreases |items|
  {
    if items != [] {
      var init := items[..|items| - 1];
      ActionsOfFirstError(init);
      assert forall i :: 0 <= i < |init| ==> init[i] == items[i];
      if ActionsOf(init).Err? {
        var i :| 0 <= i < |init| && init[i].ActionRule?
          && ActionOf(init[i].action) == Err(ActionsOf(init).error)
          && forall j :: 0 <= j < i && init[j].ActionRule? ==> ActionOf(init[j].action).Ok?;
        assert items[i] == init[i];
      }
    }
  }

  /** One more rule changes the aggregation only when it is the count. */
  lemma AggregationOfSnoc(items: seq<Item>, i: nat)
    requires i < |items|
    ensures AggregationOf(items[..i + 1])
         == if items[i].CountAggregation? then Some(CountValues) else AggregationOf(items[..i])
  {
    var longer := items[..i + 1];
    assert longer[i] == items[i];
    assert forall j :: 0 <= j < i ==> longer[j] == items[..i][j];
  }

  /** What the collection loop gathers. */
  datatype Collected = Collected(
    numeric: seq<NumericRollRequest>,
    fudge: seq<FudgeRollRequest>,
    aggregation: Option<Aggregation>,
    actions: seq<Action>)

  /** The loop of `parse_request` over the rules: push each dice's request
      onto its list, each action onto the actions, note an aggregation, and
      stop at the first action that fails to read. */
  method CollectItems(items: seq<Item>) returns (r: Result<Collected>)
    requires AllItemTokens(items)
    ensures r.Ok? <==> ActionsOf(items).Ok?
    ensures r.Err? ==> r.error == ActionsOf(items).error
    ensures r.Ok? ==> r.value == Collected(NumericDiceOf(items), FudgeDiceOf(items), AggregationOf(items), ActionsOf(items).value)
  {
    var numRequestDice: seq<NumericRollRequest> := [];
    var fudgeRequestDice: seq<FudgeRollRequest> := [];
    var aggregation: Option<Aggregation> := None;
    var actions: seq<Action> := [];
    for i := 0 to |items|
      invariant numRequestDice == NumericDiceOf(items[..i])
      invariant fudgeRequestDice == FudgeDiceOf(items[..i])
      invariant aggregation == AggregationOf(items[..i])
      invariant ActionsOf(items[..i]) == Ok(actions)
    {
      assert items[..i + 1][..i] == items[..i];
      assert items[..i + 1][i] == items[i];
      match items[i] {
        case DiceRule(FudgeDiceItem(inner)) =>
          var d := ParseFudgeDice(inner);
          fudgeRequestDice := fudgeRequestDice + [d.value];
        case DiceRule(ConstDiceItem(inner)) =>
          var d := ParseConstNumericDice(inner);
          numRequestDice := numRequestDice + [d.value];
        case DiceRule(NumberedDiceItem(inner)) =>
          var d := ParseNumberedDice(inner);
          numRequestDice := numRequestDice + [d.value];
        case ActionRule(t) =>
          var a := ActionOf(t);
          if a.Err? {
            ActionsOfErrSticks(items, i + 1);
            return Err(a.error);
          }
          actions := actions + [a.value];
        case CountAggregation =>
          aggregation := Some(CountValues);
        case EndOfInput =>
      }
      AggregationOfSnoc(items, i);
    }
    assert items[..|items|] == items;
    r := Ok(Collected(numRequestDice, fudgeRequestDice, aggregation, actions));
  }

  // ---------------------------------------------------------------------
  // Assembling the sessions

  /** A session as far as the reader sees it: its rolls, and the rest of
      its state, which only the session operations use. */
  datatype NumericSession<S> = NumericSession(rolls: seq<NumericRolls>, state: S)
  datatype FudgeSession<S> = FudgeSession(rolls: seq<FudgeRolls>, state: S)

  datatype MultiTypeSession<N, F> = MultiTypeSession(
    numericSession: Option<NumericSession<N>>,
    fudgeSession: Option<FudgeSession<F>>)

  /** The session operations the reader calls: creating a session from its
      requests, adding a step (which may fail), and aggregating. Aggregating
      a fudge session gives a numeric one. */
  datatype SessionOps<!N, !F> = SessionOps(
    newNumeric: seq<NumericRollRequest> -> NumericSession<N>,
    newFudge: seq<FudgeRollRequest> -> FudgeSession<F>,
    numericStep: (NumericSession<N>, Action) -> Result<NumericSession<N>>,
    fudgeStep: (FudgeSession<F>, Action) -> Result<FudgeSession<F>>,
    aggregateNumeric: (NumericSession<N>, Aggregation) -> NumericSession<N>,
    aggregateFudge: (FudgeSession<F>, Aggregation) -> NumericSession<N>)

  /** The steps applied in order; the first failure is the result. */
  function ApplySteps<S>(s: S, actions: seq<Action>, step: (S, Action) -> Result<S>): Result<S>
    decreases |actions|
  {
    if actions == [] then Ok(s)
    else
      var t :- ApplySteps(s, actions[..|actions| - 1], step);
      step(t, actions[|actions| - 1])
  }

  lemma {:induction false} ApplyStepsErrSticks<S>(s: S, actions: seq<Action>, step: (S, Action) -> Result<S>, n: nat)
    requires n <= |actions| && ApplySteps(s, actions[..n], step).Err?
    ensures ApplySteps(s, actions, step) == ApplySteps(s, actions[..n], step)
    decreases |actions| - n
  {
    if n < |actions| {
      assert actions[..n + 1][..n] == actions[..n];
      ApplyStepsErrSticks(s, actions, step, n + 1);
    } else {
      assert actions[..n] == actions;
    }
  }

  /** Applying a sequence of steps is applying its first part, then the
      rest. */
  lemma {:induction false} ApplyStepsAppend<S>(s: S, a: seq<Action>, b: seq<Action>, step: (S, Action) -> Result<S>)
    ensures ApplySteps(s, a + b, step) ==
      match ApplySteps(s, a, step)
      case Err(e) => Err(e)
      case Ok(t) => ApplySteps(t, b, step)
    decreases |b|
  {
    if b == [] {
      assert a + b == a;
    } else {
      assert (a + b)[..|a + b| - 1] == a + b[..|b| - 1];
      ApplyStepsAppend(s, a, b[..|b| - 1], step);
    }
  }

  /** `for action in actions.iter() { session.add_step(*action)?; }` */
  method RunSteps<S>(s: S, actions: seq<Action>, step: (S, Action) -> Result<S>) returns (r: Result<S>)
    ensures r == ApplySteps(s, actions, step)
  {
    var session := s;
    for k := 0 to |actions|
      invariant ApplySteps(s, actions[..k], step) == Ok(session)
    {
      assert actions[..k + 1][..k] == actions[..k];
      var next := step(session, actions[k]);
      if next.Err? {
        ApplyStepsErrSticks(s, actions, step, k + 1);
        return next;
      }
      session := next.value;
    }
    assert actions[..|actions|] == actions;
    r := Ok(session);
  }

  /** The sessions the reader returns for what it collected. */
  function Assembled<N, F>(c: Collected, ops: SessionOps<N, F>): (r: Result<MultiTypeSession<N, F>>)
    ensures c.numeric == [] && c.fudge == [] ==> r == Ok(MultiTypeSession(None, None))
    ensures r.Ok? && r.value.fudgeSession.Some? ==> c.aggregation.None?
  {
    var num :- if c.numeric == [] then Ok(None) else
      var s :- ApplySteps(ops.newNumeric(c.numeric), c.actions, ops.numericStep);
      Ok(Some(if c.aggregation.Some? then ops.aggregateNumeric(s, c.aggregation.value) else s));
    if c.fudge == [] then Ok(MultiTypeSession(num, None))
    else
      var f :- ApplySteps(ops.newFudge(c.fudge), c.actions, ops.fudgeStep);
      if c.aggregation.Some? then
        var agg := ops.aggregateFudge(f, c.aggregation.value);
        if num.Some? then Ok(MultiTypeSession(Some(num.value.(rolls := num.value.rolls + agg.rolls)), None))
        else Ok(MultiTypeSession(Some(agg), None))
      else Ok(MultiTypeSession(num, Some(f)))
  }

  /** Lines 115-155 of `parse_request`: a numeric session when there are
      numeric dice, a fudge session when there are fudge dice, each taking
      every action in order; with an aggregation, the aggregated fudge
      session's rolls join the numeric session. */
  method AssembleSessions<N, F>(c: Collected, ops: SessionOps<N, F>) returns (r: Result<MultiTypeSession<N, F>>)
    ensures r == Assembled(c, ops)
  {
    var res: MultiTypeSession<N, F> := MultiTypeSession(None, None);
    if |c.numeric| > 0 {
      var stepped := RunSteps(ops.newNumeric(c.numeric), c.actions, ops.numericStep);
      if stepped.Err? {
        return Err(stepped.error);
      }
      var session := stepped.value;
      if c.aggregation.Some? {
        session := ops.aggregateNumeric(session, c.aggregation.value);
      }
      res := res.(numericSession := Some(session));
    }
    if |c.fudge| > 0 {
      var stepped := RunSteps(ops.newFudge(c.fudge), c.actions, ops.fudgeStep);
      if stepped.Err? {
        return Err(stepped.error);
      }
      var session := stepped.value;
      if c.aggregation.Some? {
        var numSession := ops.aggregateFudge(session, c.aggregation.value);
        if res.numericSession.Some? {
          var merged := res.numericSession.value;
          res := res.(numericSession := Some(merged.(rolls := merged.rolls + numSession.rolls)));
        } else {
          res := res.(numericSession := Some(numSession));
        }
      } else {
        res := res.(fudgeSession := Some(session));
      }
    }
    r := Ok(res);
  }

  /** Which sessions come back: a numeric one when there are numeric dice,
      or fudge dice and an aggregation; a fudge one only when there are
      fudge dice and no aggregation. */
  lemma AssembledShape<N, F>(c: Collected, ops: SessionOps<N, F>)
    requires Assembled(c, ops).Ok?
    ensures Assembled(c, ops).value.numericSession.Some? <==> c.numeric != [] || (c.fudge != [] && c.aggregation.Some?)
    ensures Assembled(c, ops).value.fudgeSession.Some? <==> c.fudge != [] && c.aggregation.None?
    ensures Assembled(c, ops).value.fudgeSession.Some? ==>
      Assembled(c, ops).value.fudgeSession == Some(ApplySteps(ops.newFudge(c.fudge), c.actions, ops.fudgeStep).value)
  {
  }

  /** Assembly fails exactly when a present session's steps fail; the
      numeric session's error comes first. */
  lemma AssembledFails<N, F>(c: Collected, ops: SessionOps<N, F>)
    ensures var numeric := ApplySteps(ops.newNumeric(c.numeric), c.actions, ops.numericStep);
      var fudge := ApplySteps(ops.newFudge(c.fudge), c.actions, ops.fudgeStep);
      && (Assembled(c, ops).Err? <==> (c.numeric != [] && numeric.Err?) || (c.fudge != [] && fudge.Err?))
      && (c.numeric != [] && numeric.Err? ==> Assembled(c, ops) == Err(numeric.error))
      && (c.fudge != [] && fudge.Err? && (c.numeric == [] || numeric.Ok?) ==> Assembled(c, ops) == Err(fudge.error))
  {
  }

  /** With both kinds of dice and an aggregation, the numeric session's
      rolls come first and the aggregated fudge rolls follow. */
  lemma AssembledMerge<N, F>(c: Collected, ops: SessionOps<N, F>)
    requires c.numeric != [] && c.fudge != [] && c.aggregation.Some?
    requires Assembled(c, ops).Ok?
    ensures var numeric := ApplySteps(ops.newNumeric(c.numeric), c.actions, ops.numericStep).value;
      var fudge := ApplySteps(ops.newFudge(c.fudge), c.actions, ops.fudgeStep).value;
      Assembled(c, ops).value.numericSession.value.rolls
        == ops.aggregateNumeric(numeric, c.aggregation.value).rolls + ops.aggregateFudge(fudge, c.aggregation.value).rolls
  {
  }

  /** What `parse_request` returns for the rules read. */
  function Parsed<N, F>(items: seq<Item>, ops: SessionOps<N, F>): (r: Result<MultiTypeSession<N, F>>)
    requires AllItemTokens(items)
    ensures ActionsOf(items).Err? ==> r == Err(ActionsOf(items).error)
  {
    var actions :- ActionsOf(items);
    Assembled(Collected(NumericDiceOf(items), FudgeDiceOf(items), AggregationOf(items), actions), ops)
  }

  /** `parse_request`, from the rules the grammar matched. */
  method ParseRequest<N, F>(items: seq<Item>, ops: SessionOps<N, F>) returns (r: Result<MultiTypeSession<N, F>>)
    requires AllItemTokens(items)
    ensures r == Parsed(items, ops)
  {
    var c :- CollectItems(items);
    r := AssembleSessions(c, ops);
  }

  /** With no numeric rule, no aggregation and an answer, there is no
      numeric session; with a numeric rule there is one. */
  lemma NumericSessionIffNumericDice<N, F>(items: seq<Item>, ops: SessionOps<N, F>)
    requires AllItemTokens(items) && Parsed(items, ops).Ok?
    requires AggregationOf(items).None?
    ensures Parsed(items, ops).value.numericSession.Some? <==> exists i :: 0 <= i < |items| && IsNumericDice(items[i])
  {
    var actions := ActionsOf(items).value;
    AssembledShape(Collected(NumericDiceOf(items), FudgeDiceOf(items), AggregationOf(items), actions), ops);
    NumericDiceOfEmpty(items);
  }

  const NoNumericMessage: string := "Could not parse numeric roll request"
  const NoFudgeMessage: string := "Could not parse fudge roll request"

  /** `NumericSession::from_str`: the numeric session of the request, or a
      parse error when it has none. */
  method NumericSessionFromStr<N, F>(items: seq<Item>, ops: SessionOps<N, F>) returns (r: Result<NumericSession<N>>)
    requires AllItemTokens(items)
    ensures Parsed(items, ops).Err? ==> r == Err(Parsed(items, ops).error)
    ensures Parsed(items, ops).Ok? ==>
      r == match Parsed(items, ops).value.numericSession
           case Some(s) => Ok(s)
           case None => Err(Error(Parse(NoNumericMessage)))
  {
    var parsed :- ParseRequest(items, ops);
    match parsed.numericSession {
      case Some(s) => r := Ok(s);
      case None => r := Err(Error(Parse(NoNumericMessage)));
    }
  }

  /** `FudgeSession::from_str`: the fudge session of the request, or a parse
      error when it has none. */
  method FudgeSessionFromStr<N, F>(items: seq<Item>, ops: SessionOps<N, F>) returns (r: Result<FudgeSession<F>>)
    requires AllItemTokens(items)
    ensures Parsed(items, ops).Err? ==> r == Err(Parsed(items, ops).error)
    ensures Parsed(items, ops).Ok? ==>
      r == match Parsed(items, ops).value.fudgeSession
           case Some(s) => Ok(s)
           case None => Err(Error(Parse(NoFudgeMessage)))
  {
    var parsed :- ParseRequest(items, ops);
    match parsed.fudgeSession {
      case Some(s) => r := Ok(s);
      case None => r := Err(Error(Parse(NoFudgeMessage)));
    }
  }
}
