/** The constructors of src/dice.rs that roll a request into a `Rolls`
    record (`NumericRolls::new`, `FudgeRolls::new`). They describe the
    record with the request's display, so they sit above the writer. */
module DiceRolls {
  import opened Dice
  import opened Write

  /** `NumericRolls::new`: keep the request, describe it by its display
      text, and roll exactly `request.number` values of its dice. */
  method NewNumericRolls(request: NumericRollRequest, dice: Dice) returns (r: NumericRolls)
    requires CanRollNumeric(request.number, request.dice)
    modifies dice
    ensures r.diceRequest == request
    ensures r.description == NumericRequestToString(request)
    ensures |r.rolls| == request.number
    ensures PossibleNumericRolls(request.number, request.dice, r.rolls)
  {
    var rolls := dice.RollNumeric(request.number, request.dice);
    r := Rolls(request, NumericRequestToString(request), rolls);
  }

  /** `FudgeRolls::new`, the same for a fudge request. */
  method NewFudgeRolls(request: FudgeRollRequest, dice: Dice) returns (r: FudgeRolls)
    requires CanRollFudge(request.number, request.dice)
    modifies dice
    ensures r.diceRequest == request
    ensures r.description == FudgeRequestToString(request)
    ensures |r.rolls| == request.number
    ensures PossibleFudgeRolls(request.number, request.dice, r.rolls)
  {
    var rolls := dice.RollFudge(request.number, request.dice);
    r := Rolls(request, FudgeRequestToString(request), rolls);
  }
}
