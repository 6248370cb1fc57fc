/** How dice, requests and rolls render as text (src/io/write.rs): the
    `Display` impls for the shapes of src/dice.rs. */
module Write {
  import opened Text
  import opened Dice

  /** `Display for FudgeRoll`: one symbol per value. */
  function FudgeRollToString(f: FudgeRoll): (s: string)
    ensures |s| == 1
  {
    match f
    case Blank => "0"
    case Plus => "+"
    case Minus => "-"
  }

  lemma FudgeRollToStringInjective(a: FudgeRoll, b: FudgeRoll)
    requires FudgeRollToString(a) == FudgeRollToString(b)
    ensures a == b
  {
  }

  function NumericRollToString(v: NumericRoll): (s: string)
    ensures Canonical(s) && DecimalValue(s) == v
  {
    NatToStringCanonical(v);
    DecimalValueOfNatToString(v);
    NatToString(v)
  }

  /** Each value rendered with `show`. */
  function Shown<T>(values: seq<T>, show: T -> string): (r: seq<string>)
    ensures |r| == |values|
    ensures forall i :: 0 <= i < |values| ==> r[i] == show(values[i])
  {
    seq(|values|, i requires 0 <= i < |values| => show(values[i]))
  }

  /** `values.iter().map(|val| val.to_string() + ",").collect::<String>()` */
  function CommaTerminated<T>(values: seq<T>, show: T -> string): string
  {
    if values == [] then [] else show(values[0]) + "," + CommaTerminated(values[1..], show)
  }

  /** A repeating dice: "[" then each value followed by "," then "...]". */
  function RepeatingToString<T>(values: seq<T>, show: T -> string): string
  {
    "[" + CommaTerminated(values, show) + "...]"
  }

  /** `Display for NumericDice`. */
  function NumericDiceToString(d: NumericDice): (s: string)
    ensures s != []
    ensures d.NumberedDice? ==> s[0] == 'D'
    ensures d.RepeatingDice? ==> s[0] == '['
  {
    match d
    case ConstDice(v) => NumericRollToString(v)
    case NumberedDice(sides) => "D" + NumericRollToString(sides)
    case RepeatingDice(values) => RepeatingToString(values, NumericRollToString)
    case AggregationResult => "AggregatedValue"
  }

  /** `Display for FudgeDice`. */
  function FudgeDiceToString(d: FudgeDice): (s: string)
    ensures s != []
    ensures d.FudgeDice? <==> s == "F"
    ensures d.RepeatingDice? ==> s[0] == '['
  {
    match d
    case FudgeDice => "F"
    case ConstDice(v) => FudgeRollToString(v)
    case RepeatingDice(values) => RepeatingToString(values, FudgeRollToString)
  }

  /** `Display for RollRequest<T>`: the count, then the dice. */
  function RollRequestToString<T>(r: RollRequest<T>, show: T -> string): (s: string)
    ensures |s| >= 1 && IsDigit(s[0])
  {
    NatToString(r.number) + show(r.dice)
  }

  /** The line of one request's rolls: the description, ": ", then the
      values separated by single spaces. */
  function RollsLine<T>(description: string, rolls: seq<T>, show: T -> string): (s: string)
    ensures |s| >= |description| + 2 && s[..|description|] == description
  {
    description + ": " + Join(Shown(rolls, show), " ")
  }

  /** `Display for Rolls<T, V>`. */
  function RollsToString<T, V>(r: Rolls<T, V>, show: T -> string): string
  {
    RollsLine(r.description, r.rolls, show)
  }

  function NumericRequestToString(r: NumericRollRequest): string
  {
    RollRequestToString(r, NumericDiceToString)
  }

  function FudgeRequestToString(r: FudgeRollRequest): string
  {
    RollRequestToString(r, FudgeDiceToString)
  }

  /** The comma-terminated list is the rendered values joined by commas with
      one empty piece after the last comma. */
  lemma {:induction false} CommaTerminatedIsJoin<T>(values: seq<T>, show: T -> string)
    ensures CommaTerminated(values, show) == Join(Shown(values, show) + [[]], ",")
    decreases |values|
  {
    if values != [] {
      CommaTerminatedIsJoin(values[1..], show);
      assert (Shown(values, show) + [[]])[1..] == Shown(values[1..], show) + [[]];
    }
  }

  /** Reading a repeating numeric dice's text back: between "[" and "...]"
      the comma-separated pieces are the values' decimal forms, in order,
      and one empty piece. */
  lemma RepeatingNumericReadBack(values: seq<NumericRoll>)
    ensures var s := NumericDiceToString(NumericDice.RepeatingDice(values));
      && |s| >= 5 && s[0] == '[' && s[|s| - 4..] == "...]"
      && var pieces := Split(s[1..|s| - 4], ',');
      && |pieces| == |values| + 1 && pieces[|values|] == []
      && forall i :: 0 <= i < |values| ==> Canonical(pieces[i]) && DecimalValue(pieces[i]) == values[i]
  {
    var shown := Shown(values, NumericRollToString);
    CommaTerminatedIsJoin(values, NumericRollToString);
    var s := NumericDiceToString(NumericDice.RepeatingDice(values));
    var inner := CommaTerminated(values, NumericRollToString);
    assert s == "[" + inner + "...]";
    assert s[1..|s| - 4] == inner;
    forall k | 0 <= k < |shown + [[]]| ensures ',' !in (shown + [[]])[k] {
      if k < |shown| {
        assert AllDigits(shown[k]);
      }
    }
    SplitJoin(shown + [[]], ',');
  }

  /** Reading a rolls line back: after the description and ": ", the
      space-separated pieces are the values' decimal forms, in order. A line
      with no values ends right after ": ". */
  lemma RollsLineReadBack(description: string, rolls: seq<NumericRoll>)
    ensures var s := RollsLine(description, rolls, NumericRollToString);
      && s[..|description| + 2] == description + ": "
      && (rolls == [] ==> s == description + ": ")
      && (rolls != [] ==>
            var pieces := Split(s[|description| + 2..], ' ');
            && |pieces| == |rolls|
            && forall i :: 0 <= i < |rolls| ==> Canonical(pieces[i]) && DecimalValue(pieces[i]) == rolls[i])
  {
    var shown := Shown(rolls, NumericRollToString);
    var s := RollsLine(description, rolls, NumericRollToString);
    assert s == description + ": " + Join(shown, " ");
    assert s[|description| + 2..] == Join(shown, " ");
    if rolls != [] {
      forall k | 0 <= k < |shown| ensures ' ' !in shown[k] {
        assert AllDigits(shown[k]);
      }
      SplitJoin(shown, ' ');
    }
  }

  /** A character no value's rendering contains is absent from the
      comma-terminated list too, unless it is the comma. */
  lemma {:induction false} CommaTerminatedAvoids<T>(values: seq<T>, show: T -> string, c: char)
    requires c != ','
    requires forall i :: 0 <= i < |values| ==> c !in show(values[i])
    ensures c !in CommaTerminated(values, show)
    decreases |values|
  {
    if values != [] {
      CommaTerminatedAvoids(values[1..], show, c);
    }
  }

  /** Joining pieces that avoid c with a separator that avoids c gives a
      text that avoids c. */
  lemma {:induction false} JoinAvoids(parts: seq<string>, sep: string, c: char)
    requires c !in sep
    requires forall i :: 0 <= i < |parts| ==> c !in parts[i]
    ensures c !in Join(parts, sep)
    decreases |parts|
  {
    if |parts| > 1 {
      JoinAvoids(parts[1..], sep, c);
    }
  }

  /** No rendered request spans two lines. */
  lemma NumericRequestOneLine(r: NumericRollRequest)
    ensures '\n' !in NumericRequestToString(r)
  {
    if r.dice.RepeatingDice? {
      CommaTerminatedAvoids(r.dice.values, NumericRollToString, '\n');
    }
  }

  lemma FudgeRequestOneLine(r: FudgeRollRequest)
    ensures '\n' !in FudgeRequestToString(r)
  {
    if r.dice.RepeatingDice? {
      CommaTerminatedAvoids(r.dice.values, FudgeRollToString, '\n');
    }
  }

  /** A rolls line is one line when its description is. */
  lemma RollsLineOneLine<T>(description: string, rolls: seq<T>, show: T -> string)
    requires '\n' !in description
    requires forall i :: 0 <= i < |rolls| ==> '\n' !in show(rolls[i])
    ensures '\n' !in RollsLine(description, rolls, show)
  {
    JoinAvoids(Shown(rolls, show), " ", '\n');
  }

  /** The renderings the source's (commented-out) tests expect. */
  lemma WriteExamples()
    ensures FudgeRollToString(Blank) == "0"
    ensures FudgeRollToString(Minus) == "-"
    ensures FudgeRollToString(Plus) == "+"
    ensures NumericDiceToString(NumberedDice(20)) == "D20"
    ensures FudgeDiceToString(FudgeDice.FudgeDice) == "F"
    ensures NumericDiceToString(NumericDice.RepeatingDice([1, 2, 3])) == "[1,2,3,...]"
    ensures FudgeRequestToString(RollRequest(5, FudgeDice.FudgeDice)) == "5F"
    ensures NumericRequestToString(RollRequest(1, NumberedDice(6))) == "1D6"
  {
    assert NatToString(20) == "20";
  }
}
