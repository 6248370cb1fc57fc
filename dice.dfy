/** Dice and the generator that rolls them (src/dice.rs): numeric dice
    (constant, numbered, repeating), fudge dice, a request pairing a count
    with a dice, and the record of one request's rolls. The random source
    is an object whose draws are only known to lie in the asked range. */
module Dice {

  /** `DiceNumber`: how many dice a request rolls, a `u8`. */
  type DiceNumber = n: nat | n <= 255

  /** `NumericRoll`: the value of a numeric roll, a `u16`. */
  type NumericRoll = n: nat | n <= 65535

  /** The value of a fudge (fate) roll. */
  datatype FudgeRoll = Plus | Minus | Blank

  datatype NumericDice =
    | ConstDice(constValue: NumericRoll)
    | NumberedDice(sides: NumericRoll)
    | RepeatingDice(values: seq<NumericRoll>)
    | AggregationResult

  datatype FudgeDice =
    | FudgeDice
    | ConstDice(constValue: FudgeRoll)
    | RepeatingDice(values: seq<FudgeRoll>)

  /** `repeating_values.iter().max().unwrap_or(&0)` */
  function MaxOrZero(values: seq<NumericRoll>): (m: NumericRoll)
    ensures forall i :: 0 <= i < |values| ==> values[i] <= m
    ensures values == [] ==> m == 0
    ensures values != [] ==> m in values
  {
    if values == [] then 0
    else
      var rest := MaxOrZero(values[1..]);
      if values[0] >= rest then values[0] else rest
  }

  /** The largest value a dice can show. `AggregationResult` has none: the
      source calls `unimplemented!()` for it. */
  function GetMaxValue(d: NumericDice): (m: NumericRoll)
    requires !d.AggregationResult?
    ensures d.ConstDice? ==> m == d.constValue
    ensures d.NumberedDice? ==> m == d.sides
    ensures d.RepeatingDice? ==> (forall i :: 0 <= i < |d.values| ==> d.values[i] <= m)
                                 && (d.values == [] ==> m == 0)
                                 && (d.values != [] ==> m in d.values)
  {
    match d
    case ConstDice(v) => v
    case NumberedDice(sides) => sides
    case RepeatingDice(values) => MaxOrZero(values)
  }

  /** The repeating values cycled and cut to length n. */
  function Cycle<T>(values: seq<T>, n: nat): (r: seq<T>)
    requires |values| > 0
    ensures |r| == n
  {
    seq(n, i requires 0 <= i < n => values[i % |values|])
  }

  /** `roll_const_dice`: `(1..n + 1).map(|_| value)`; the range end `n + 1`
      overflows a `u8` at n = 255. */
  function RollConstDice<T>(n: DiceNumber, value: T): (r: seq<T>)
    requires n < 255
    ensures |r| == n
    ensures forall i :: 0 <= i < |r| ==> r[i] == value
  {
    if n == 0 then [] else RollConstDice(n - 1, value) + [value]
  }

  /** `roll_repeating`: start from one copy of the values and append another
      copy n / |values| times, so the buffer always reaches past n, then keep
      the first n. An empty list divides by zero in the source. */
  method RollRepeating<T>(n: DiceNumber, values: seq<T>) returns (r: seq<T>)
    requires |values| > 0
    ensures r == Cycle(values, n)
  {
    var repeatValues := values;
    var copies := n / |values|;
    var k := 0;
    assert repeatValues == Repeat(values, 1);
    while k < copies
      invariant 0 <= k <= copies
      invariant repeatValues == Repeat(values, k + 1)
    {
      repeatValues := repeatValues + values;
      k := k + 1;
    }
    DivMod(n, |values|, copies, n % |values|);
    r := repeatValues[..n];
    forall i | 0 <= i < n ensures r[i] == Cycle(values, n)[i] {
      RepeatAt(values, copies + 1, i);
    }
  }

  /** m copies of the values, one after the other. */
  function Repeat<T>(values: seq<T>, m: nat): (r: seq<T>)
    ensures |r| == |values| * m
  {
    if m == 0 then [] else Repeat(values, m - 1) + values
  }

  lemma {:induction false} RepeatAt<T>(values: seq<T>, m: nat, i: nat)
    requires |values| > 0 && i < |values| * m
    ensures Repeat(values, m)[i] == values[i % |values|]
  {
    var len := |values|;
    if i < len * (m - 1) {
      RepeatAt(values, m - 1, i);
    } else {
      DivMod(i, len, m - 1, i - len * (m - 1));
    }
  }

  /** Euclidean division is unique: the quotient and remainder of y by len
      are the q and r with y = len * q + r and 0 <= r < len. */
  lemma DivMod(y: int, len: int, q: int, r: int)
    requires len > 0 && y == len * q + r && 0 <= r < len
    ensures y % len == r && y / len == q
  {
    var q' := y / len;
    if q' > q {
      MulMonotone(len, q + 1, q');
    } else if q' < q {
      MulMonotone(len, q' + 1, q);
    }
  }

  lemma MulMonotone(a: int, b: int, c: int)
    requires a > 0 && b <= c
    ensures a * b <= a * c
  {
  }

  /** The draw a fudge dice makes from `gen_range(1, 4)`: 1 is blank, 2 is
      plus, anything else minus. */
  function FudgeOfDraw(draw: nat): (f: FudgeRoll)
    ensures draw == 1 <==> f == Blank
    ensures draw == 2 <==> f == Plus
  {
    if draw == 1 then Blank else if draw == 2 then Plus else Minus
  }

  /** What rolling n of a numeric dice may give: n values, each the constant,
      each in [1, sides], or the repeating values cycled. */
  ghost predicate PossibleNumericRolls(n: nat, d: NumericDice, r: seq<NumericRoll>)
  {
    |r| == n &&
    match d
    case ConstDice(v) => forall i :: 0 <= i < n ==> r[i] == v
    case NumberedDice(sides) => forall i :: 0 <= i < n ==> 1 <= r[i] <= sides
    case RepeatingDice(values) => |values| > 0 && r == Cycle(values, n)
    case AggregationResult => false
  }

  /** What rolling n of a fudge dice may give. */
  ghost predicate PossibleFudgeRolls(n: nat, d: FudgeDice, r: seq<FudgeRoll>)
  {
    |r| == n &&
    match d
    case FudgeDice => true
    case ConstDice(v) => forall i :: 0 <= i < n ==> r[i] == v
    case RepeatingDice(values) => |values| > 0 && r == Cycle(values, n)
  }

  /** What the source demands before it rolls n of a numeric dice without
      panicking: `n + 1` must fit a `u8`, `sides + 1` a `u16`, a numbered
      dice with dice to roll needs a side, repeating values must not be
      empty, and `AggregationResult` is `unimplemented!()`. */
  predicate CanRollNumeric(n: DiceNumber, d: NumericDice)
  {
    match d
    case ConstDice(_) => n < 255
    case NumberedDice(sides) => n < 255 && (n == 0 || 1 <= sides < 65535)
    case RepeatingDice(values) => |values| > 0
    case AggregationResult => false
  }

  predicate CanRollFudge(n: DiceNumber, d: FudgeDice)
  {
    match d
    case FudgeDice => n < 255
    case ConstDice(_) => n < 255
    case RepeatingDice(values) => |values| > 0
  }

  /** The generator object. Its state stands for the thread-local random
      generator behind a `RefCell`; callers learn nothing about a draw but
      its range. */
  class Dice {
    var rng: nat

    constructor ()
    {
      rng := 0x2545F491;
    }

    /** `rng.gen_range(low, high)`: a value in [low, high); panics unless low < high. */
    method GenRange(low: nat, high: nat) returns (v: nat)
      requires low < high
      modifies this
      ensures low <= v < high
    {
      v := low + rng % (high - low);
      rng := (rng * 6364136223846793005 + 1442695040888963407) % 0x1_0000_0000_0000_0000;
    }

    /** `roll_numbered_dice`: n draws from [1, sides]. */
    method RollNumberedDice(n: DiceNumber, sides: NumericRoll) returns (r: seq<NumericRoll>)
      requires n < 255 && (n == 0 || 1 <= sides < 65535)
      modifies this
      ensures |r| == n
      ensures forall i :: 0 <= i < n ==> 1 <= r[i] <= sides
    {
      r := [];
      while |r| < n
        invariant |r| <= n
        invariant forall i :: 0 <= i < |r| ==> 1 <= r[i] <= sides
      {
        var v := GenRange(1, sides + 1);
        r := r + [v];
      }
    }

    /** `roll_fudge_dice`: n draws from [1, 4), each mapped by FudgeOfDraw. */
    method RollFudgeDice(n: DiceNumber) returns (r: seq<FudgeRoll>, ghost draws: seq<nat>)
      requires n < 255
      modifies this
      ensures |r| == n && |draws| == n
      ensures forall i :: 0 <= i < n ==> 1 <= draws[i] < 4 && r[i] == FudgeOfDraw(draws[i])
    {
      r, draws := [], [];
      while |r| < n
        invariant |r| == |draws| <= n
        invariant forall i :: 0 <= i < |r| ==> 1 <= draws[i] < 4 && r[i] == FudgeOfDraw(draws[i])
      {
        var draw := GenRange(1, 4);
        r, draws := r + [FudgeOfDraw(draw)], draws + [draw];
      }
    }

    /** `Roll<NumericRoll, NumericDice>::roll`: each dice to its helper. */
    method RollNumeric(n: DiceNumber, d: NumericDice) returns (r: seq<NumericRoll>)
      requires CanRollNumeric(n, d)
      modifies this
      ensures PossibleNumericRolls(n, d, r)
      ensures !d.NumberedDice? ==> rng == old(rng)
    {
      match d {
        case ConstDice(v) =>
          r := RollConstDice(n, v);
        case NumberedDice(sides) =>
          r := RollNumberedDice(n, sides);
        case RepeatingDice(values) =>
          r := RollRepeating(n, values);
      }
    }

    /** `Roll<FudgeRoll, FudgeDice>::roll`: each dice to its helper. */
    method RollFudge(n: DiceNumber, d: FudgeDice) returns (r: seq<FudgeRoll>)
      requires CanRollFudge(n, d)
      modifies this
      ensures PossibleFudgeRolls(n, d, r)
      ensures !d.FudgeDice? ==> rng == old(rng)
    {
      match d {
        case FudgeDice =>
          ghost var draws;
          r, draws := RollFudgeDice(n);
        case ConstDice(v) =>
          r := RollConstDice(n, v);
        case RepeatingDice(values) =>
          r := RollRepeating(n, values);
      }
    }
  }

  /** `RollRequest<T>`: how many of which dice. */
  datatype RollRequest<T> = RollRequest(number: DiceNumber, dice: T)

  /** `Rolls<T, V>`: the request, a description and the values rolled. */
  datatype Rolls<T, V> = Rolls(diceRequest: RollRequest<V>, description: string, rolls: seq<T>)

  type NumericRollRequest = RollRequest<NumericDice>
  type FudgeRollRequest = RollRequest<FudgeDice>
  type NumericRolls = Rolls<NumericRoll, NumericDice>
  type FudgeRolls = Rolls<FudgeRoll, FudgeDice>

  /** The unit tests of src/dice.rs, on the deterministic dice. */
  lemma RepeatingExamples()
    ensures Cycle([1, 2, 3, 4, 5], 0) == []
    ensures Cycle([1, 2, 3, 4, 5], 3) == [1, 2, 3]
    ensures Cycle([1, 2, 3, 4, 5], 5) == [1, 2, 3, 4, 5]
    ensures Cycle([1, 2, 3, 4, 5], 15) == [1, 2, 3, 4, 5, 1, 2, 3, 4, 5, 1, 2, 3, 4, 5]
  {
  }

  lemma ConstExamples()
    ensures RollConstDice(5, 42) == [42, 42, 42, 42, 42]
    ensures RollConstDice(2, Blank) == [Blank, Blank]
  {
  }
}
