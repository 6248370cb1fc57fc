/** The transformations of src/actions.rs that turn the rolls of one
    request into new rolls: cloning, multiplying, rerolling a value,
    flipping digits, summing, exploding, totalling several requests and
    counting values. A dice is seen only through its `roll(n)` calls. */
module Actions {
  import opened Text
  import opened Errors
  import Io
  import Dice

  type DiceNumber = n: nat | n <= 255
  type NumericRoll = n: nat | n <= 65535

  /** `Action`: every transformation a request can ask for. */
  datatype Action =
    | Identity
    | CountValues
    | RerollNumeric(rerolled: NumericRoll)
    | RerollFudge(fudge: Dice.FudgeRoll)
    | Sum
    | Total
    | MultiplyBy(factor: NumericRoll)
    | FlipFlop
    | Explode(trigger: NumericRoll)

  /** The rolls a dice gives, call by call: `roll(k, n)` is what its k-th
      `roll(n)` call returns. Constant and repeating dice give the same
      rolls on every call; a numbered dice's rolls depend on the call. */
  type Roller<T> = (nat, nat) -> seq<T>

  /** A dice that keeps its contract: `roll(n)` gives n values. */
  ghost predicate Sized<T>(roll: Roller<T>)
  {
    forall k: nat, n: nat :: |roll(k, n)| == n
  }

  /** `ConstDice::new(v)` as a roller: every call for n rolls gives n rolls,
      each showing v. */
  function ConstRoller<T>(v: T): (roll: Roller<T>)
    ensures Sized(roll)
    ensures forall k: nat, n: nat, i :: 0 <= i < n ==> roll(k, n)[i] == v
  {
    (k: nat, n: nat) => seq(n, _ => v)
  }

  /** The constant roller is the constant dice of src/dice.rs: wherever
      `roll_const_dice` does not overflow, a call gives what it gives, and
      every roll of a call is a match for the value. */
  lemma ConstRollerMeaning<T>(v: T, k: nat, n: nat)
    ensures CountOf(ConstRoller(v)(k, n), v) == n
    ensures n < 255 ==> ConstRoller(v)(k, n) == Dice.RollConstDice(n, v)
  {
    assert ConstRoller(v)(k, n) == seq(n, _ => v);
    CountOfConst(n, v);
  }

  /** `RepeatingDice::new(values)` as a roller: every call restarts the cycle. */
  function RepeatingRoller<T>(values: seq<T>): (roll: Roller<T>)
    requires |values| > 0
  {
    (k: nat, n: nat) => seq(n, i requires 0 <= i < n => values[i % |values|])
  }

  /** How many rolls equal t. */
  function CountOf<T(==)>(s: seq<T>, t: T): (c: nat)
    ensures c <= |s|
  {
    if s == [] then 0
    else CountOf(s[..|s| - 1], t) + (if s[|s| - 1] == t then 1 else 0)
  }

  /** Counting matches is counting the value's occurrences. */
  lemma {:induction false} CountOfMultiset<T>(s: seq<T>, t: T)
    ensures CountOf(s, t) == multiset(s)[t]
    decreases |s|
  {
    if s != [] {
      CountOfMultiset(s[..|s| - 1], t);
      assert s == s[..|s| - 1] + [s[|s| - 1]];
    }
  }

  // ---------------------------------------------------------------------
  // Identity, multiply, sum

  /** `clone_rolls`: a copy of the rolls. */
  function CloneRolls<T>(rolls: seq<T>): (r: seq<T>)
    ensures r == rolls
  {
    seq(|rolls|, i requires 0 <= i < |rolls| => rolls[i])
  }

  /** The sum of the values. */
  function SeqSum(s: seq<nat>): nat
  {
    if s == [] then 0 else SeqSum(s[..|s| - 1]) + s[|s| - 1]
  }

  lemma {:induction false} SeqSumAppend(a: seq<nat>, b: seq<nat>)
    ensures SeqSum(a + b) == SeqSum(a) + SeqSum(b)
    decreases |b|
  {
    if b == [] {
      assert a + b == a;
    } else {
      SeqSumAppend(a, b[..|b| - 1]);
      assert (a + b)[..|a + b| - 1] == a + b[..|b| - 1];
      assert (a + b)[|a + b| - 1] == b[|b| - 1];
    }
  }

  lemma {:induction false} SeqSumBound(s: seq<nat>, i: nat)
    requires i < |s|
    ensures s[i] <= SeqSum(s)
    decreases |s|
  {
    if i < |s| - 1 {
      SeqSumBound(s[..|s| - 1], i);
    }
  }

  /** `multiply`: every roll times the factor. A product past `u16` is an
      arithmetic overflow, which the source does not handle. */
  function Multiply(rolls: seq<NumericRoll>, factor: NumericRoll): (r: seq<NumericRoll>)
    requires forall i :: 0 <= i < |rolls| ==> rolls[i] * factor <= 65535
    ensures |r| == |rolls|
    ensures forall i :: 0 <= i < |rolls| ==> r[i] == rolls[i] * factor
  {
    seq(|rolls|, i requires 0 <= i < |rolls| => rolls[i] * factor)
  }

  /** Multiplying every roll multiplies their sum. */
  lemma {:induction false} MultiplySum(rolls: seq<NumericRoll>, factor: NumericRoll)
    requires forall i :: 0 <= i < |rolls| ==> rolls[i] * factor <= 65535
    ensures SeqSum(Multiply(rolls, factor)) == factor * SeqSum(rolls)
    decreases |rolls|
  {
    if rolls != [] {
      var init := rolls[..|rolls| - 1];
      MultiplySum(init, factor);
      assert Multiply(rolls, factor)[..|rolls| - 1] == Multiply(init, factor);
    }
  }

  /** The source's example and test of `multiply`. */
  lemma MultiplyExamples()
    ensures Multiply([1, 2, 3], 100) == [100, 200, 300]
    ensures Multiply([1, 1, 1, 15, 100], 5) == [5, 5, 5, 75, 500]
  {
  }

  /** `sum`: one roll holding the sum. The `u16` sum overflows past 65535. */
  function SumRolls(rolls: seq<NumericRoll>): (r: seq<NumericRoll>)
    requires SeqSum(rolls) <= 65535
    ensures |r| == 1 && r[0] == SeqSum(rolls)
  {
    [SeqSum(rolls)]
  }

  /** Summing the rolls of two requests apart and adding gives the sum of
      their rolls together; no roll is lost or counted twice. */
  lemma SumRollsSplit(a: seq<NumericRoll>, b: seq<NumericRoll>)
    requires SeqSum(a + b) <= 65535
    ensures SeqSum(a) <= 65535 && SeqSum(b) <= 65535
    ensures SumRolls(a + b)[0] == SumRolls(a)[0] as nat + SumRolls(b)[0]
  {
    SeqSumAppend(a, b);
  }

  /** The source's example and test of `sum`. */
  lemma SumExamples()
    ensures var x: seq<NumericRoll> := [1, 2, 3]; SeqSum(x) == 6 && SumRolls(x) == [6]
    ensures var x: seq<NumericRoll> := [1, 1, 1, 15, 100]; SeqSum(x) == 118 && SumRolls(x) == [118]
  {
    var x: seq<NumericRoll> := [1, 1, 1, 15, 100];
    assert x[..4] == [1, 1, 1, 15];
    assert x[..4][..3] == [1, 1, 1];
    assert x[..4][..3][..2] == [1, 1];
    assert x[..4][..3][..2][..1] == [1];
    assert x[..4][..3][..2][..1][..0] == [];
    assert SeqSum([1]) == 1;
    assert SeqSum([1, 1]) == 2;
    assert SeqSum([1, 1, 1]) == 3;
    assert SeqSum([1, 1, 1, 15]) == 18;
    var y: seq<NumericRoll> := [1, 2, 3];
    assert y[..2] == [1, 2] && y[..2][..1] == [1];
    assert SeqSum([1, 2]) == 3;
  }

  // ---------------------------------------------------------------------
  // Reroll

  /** The rolls after rerolling every roll equal to t, when the dice's next
      call is its k-th: each match takes the whole of one `roll(1)` call,
      in order, and nothing it brings is checked again. */
  function Rerolled<T(==)>(rolls: seq<T>, roll: Roller<T>, t: T, k: nat): (r: seq<T>)
    ensures Sized(roll) ==> |r| == |rolls|
  {
    if rolls == [] then []
    else
      var init := rolls[..|rolls| - 1];
      var last := rolls[|rolls| - 1];
      Rerolled(init, roll, t, k) + (if last == t then roll(k + CountOf(init, t), 1) else [last])
  }

  /** `reroll`: walk the rolls, append one `roll(1)` call for each match and
      the roll itself otherwise. Also gives the index of the dice's next
      call. */
  method Reroll<T(==)>(rolls: seq<T>, roll: Roller<T>, t: T, k: nat) returns (r: seq<T>, next: nat)
    ensures r == Rerolled(rolls, roll, t, k)
    ensures next == k + CountOf(rolls, t)
  {
    r, next := [], k;
    for i := 0 to |rolls|
      invariant r == Rerolled(rolls[..i], roll, t, k)
      invariant next == k + CountOf(rolls[..i], t)
    {
      assert rolls[..i + 1][..i] == rolls[..i];
      if rolls[i] == t {
        r := r + roll(next, 1);
        next := next + 1;
      } else {
        r := r + [rolls[i]];
      }
    }
    assert rolls[..|rolls|] == rolls;
  }

  /** With a dice that gives one value per call, rerolling keeps every
      position: a roll other than t stays, and the j-th match becomes the
      value of the dice's (k + j)-th call, even when that value is t again. */
  lemma {:induction false} RerollPositional<T>(rolls: seq<T>, roll: Roller<T>, t: T, k: nat)
    requires Sized(roll)
    ensures |Rerolled(rolls, roll, t, k)| == |rolls|
    ensures forall i :: 0 <= i < |rolls| ==>
              Rerolled(rolls, roll, t, k)[i] ==
                (if rolls[i] == t then roll(k + CountOf(rolls[..i], t), 1)[0] else rolls[i])
    decreases |rolls|
  {
    if rolls != [] {
      var init := rolls[..|rolls| - 1];
      var last := rolls[|rolls| - 1];
      var ext := if last == t then roll(k + CountOf(init, t), 1) else [last];
      var r := Rerolled(rolls, roll, t, k);
      var pre := Rerolled(init, roll, t, k);
      assert r == pre + ext;
      RerollPositional(init, roll, t, k);
      assert |ext| == 1;
      forall i | 0 <= i < |rolls|
        ensures r[i] == (if rolls[i] == t then roll(k + CountOf(rolls[..i], t), 1)[0] else rolls[i])
      {
        if i < |init| {
          assert r[i] == pre[i];
          assert rolls[..i] == init[..i] && rolls[i] == init[i];
        } else {
          assert r[i] == ext[0];
          assert rolls[..i] == init;
        }
      }
    }
  }

  /** The source's numeric test: the ones become 42. */
  lemma RerollNumericExample()
    ensures Rerolled<NumericRoll>([1, 1, 1, 15, 100], ConstRoller(42), 1, 0) == [42, 42, 42, 15, 100]
  {
    var roll := ConstRoller<NumericRoll>(42);
    var rolls: seq<NumericRoll> := [1, 1, 1, 15, 100];
    RerollPositional(rolls, roll, 1, 0);
    var r := Rerolled(rolls, roll, 1, 0);
    assert |r| == 5;
    forall i | 0 <= i < 5 ensures r[i] == [42, 42, 42, 15, 100][i] {
      var c := CountOf(rolls[..i], 1);
      assert r[i] == (if rolls[i] == 1 then roll(0 + c, 1)[0] else rolls[i]);
      if i < 3 {
        assert roll(c, 1)[0] == 42;
      }
    }
  }

  /** The source's text test: the minus symbols become blanks. */
  lemma RerollTextExample()
    ensures Rerolled([' ', '+', '-', '+', '-'], ConstRoller(' '), '-', 0) == [' ', '+', ' ', '+', ' ']
  {
    var roll := ConstRoller(' ');
    var rolls: seq<char> := [' ', '+', '-', '+', '-'];
    RerollPositional(rolls, roll, '-', 0);
    var r := Rerolled(rolls, roll, '-', 0);
    assert |r| == 5;
    forall i | 0 <= i < 5 ensures r[i] == [' ', '+', ' ', '+', ' '][i] {
      var c := CountOf(rolls[..i], '-');
      assert r[i] == if rolls[i] == '-' then roll(0 + c, 1)[0] else rolls[i];
      if rolls[i] == '-' {
        assert roll(c, 1)[0] == ' ';
      }
    }
  }

  // ---------------------------------------------------------------------
  // Flip

  /** `get_digits_number(max as f32)`: the number of decimal digits of the
      dice's largest value, and 0 for a largest value of 0, where the
      logarithm is minus infinity and the cast saturates. */
  function DigitsNumber(max: nat): (w: nat)
    ensures max == 0 ==> w == 0
    ensures max >= 1 ==> w >= 1 && Pow10(w - 1) <= max < Pow10(w)
  {
    if max == 0 then 0
    else
      var s := NatToString(max);
      NatToStringLength(max, |s|);
      NatToStringLength(max, |s| - 1);
      NatToStringCanonical(max);
      assert s[0] != '0';
      LeadingNonZeroPositive(s);
      DecimalValueOfNatToString(max);
      |s|
  }

  /** `format!("{:0width$}", ...)`: zeros in front up to the width. */
  function PadLeft(s: string, width: nat): (p: string)
    ensures |p| == if |s| >= width then |s| else width
    ensures p[|p| - |s|..] == s
    ensures forall i :: 0 <= i < |p| - |s| ==> p[i] == '0'
  {
    if |s| >= width then s else seq(width - |s|, _ => '0') + s
  }

  function Reverse<T>(s: seq<T>): (r: seq<T>)
    ensures |r| == |s|
    ensures forall i :: 0 <= i < |s| ==> r[i] == s[|s| - 1 - i]
  {
    seq(|s|, i requires 0 <= i < |s| => s[|s| - 1 - i])
  }

  /** One roll flipped: its decimal form padded with zeros to the width,
      reversed and read as a number. */
  function FlipValue(v: nat, width: nat): nat
  {
    var padded := PadLeft(NatToString(v), width);
    assert AllDigits(Reverse(padded)) by {
      assert forall i :: 0 <= i < |padded| ==> IsDigit(padded[i]);
    }
    DecimalValue(Reverse(padded))
  }

  /** `flip`: every roll flipped to the digit width of the dice's largest
      value. A flipped value past `u16` makes the source's `unwrap` panic. */
  function Flip(rolls: seq<NumericRoll>, maxValue: NumericRoll): (r: seq<NumericRoll>)
    requires forall i :: 0 <= i < |rolls| ==> FlipValue(rolls[i], DigitsNumber(maxValue)) <= 65535
    ensures |r| == |rolls|
    ensures forall i :: 0 <= i < |rolls| ==> r[i] == FlipValue(rolls[i], DigitsNumber(maxValue))
  {
    seq(|rolls|, i requires 0 <= i < |rolls| => FlipValue(rolls[i], DigitsNumber(maxValue)))
  }

  /** Digits of the full width read back to the same digits: the number's
      decimal form padded to that width is the digit string itself. */
  lemma {:induction false} PadDecimal(r: string)
    requires |r| >= 1 && AllDigits(r)
    ensures PadLeft(NatToString(DecimalValue(r)), |r|) == r
    decreases |r|
  {
    if r[0] != '0' || |r| == 1 {
      NatToStringOfDecimalValue(r);
    } else {
      var tail := r[1..];
      DecimalValueLeadingZero(tail);
      assert ['0'] + tail == r;
      PadDecimal(tail);
      DecimalValueBound(tail);
      NatToStringLength(DecimalValue(tail), |tail|);
      var p := PadLeft(NatToString(DecimalValue(tail)), |tail|);
      assert PadLeft(NatToString(DecimalValue(r)), |r|) == ['0'] + p;
    }
  }

  /** Flipping twice with the same width gives the roll back, for a roll of
      at most that many digits. */
  lemma FlipFlipValue(v: nat, width: nat)
    requires v < Pow10(width) && width >= 1
    ensures FlipValue(FlipValue(v, width), width) == v
  {
    NatToStringLength(v, width);
    var padded := PadLeft(NatToString(v), width);
    var flipped := Reverse(padded);
    FlippedDigits(v, width);
    var f := FlipValue(v, width);
    PadDecimal(flipped);
    FlippedDigits(f, width);
    ReverseTwice(padded);
    NatToStringOfPad(v, width);
  }

  /** The flipped form is all digits, and the flip reads it as a number. */
  lemma FlippedDigits(v: nat, width: nat)
    ensures AllDigits(Reverse(PadLeft(NatToString(v), width)))
    ensures FlipValue(v, width) == DecimalValue(Reverse(PadLeft(NatToString(v), width)))
  {
    NatToStringOfPad(v, width);
  }

  lemma ReverseTwice<T>(s: seq<T>)
    ensures Reverse(Reverse(s)) == s
  {
    assert forall i :: 0 <= i < |s| ==> Reverse(Reverse(s))[i] == s[i];
  }

  /** The padded decimal form of v reads back as v. */
  lemma NatToStringOfPad(v: nat, width: nat)
    ensures AllDigits(PadLeft(NatToString(v), width))
    ensures DecimalValue(PadLeft(NatToString(v), width)) == v
  {
    var s := NatToString(v);
    DecimalValueOfNatToString(v);
    if |s| < width {
      ZerosThen(width - |s|, s);
    }
  }

  lemma {:induction false} ZerosThen(n: nat, s: string)
    requires AllDigits(s)
    ensures AllDigits(seq(n, _ => '0') + s)
    ensures DecimalValue(seq(n, _ => '0') + s) == DecimalValue(s)
    decreases n
  {
    if n > 0 {
      var z := seq(n - 1, _ => '0') + s;
      assert seq(n, _ => '0') + s == ['0'] + z;
      ZerosThen(n - 1, s);
      DecimalValueLeadingZero(z);
    } else {
      assert seq(n, _ => '0') + s == s;
    }
  }

  /** On the rolls a dice can give, flipping with that dice twice restores
      the rolls. */
  lemma FlipFlip(rolls: seq<NumericRoll>, maxValue: NumericRoll)
    requires maxValue >= 1
    requires forall i :: 0 <= i < |rolls| ==> rolls[i] <= maxValue
    requires forall i :: 0 <= i < |rolls| ==> FlipValue(rolls[i], DigitsNumber(maxValue)) <= 65535
    requires forall i :: 0 <= i < |rolls| ==> FlipValue(Flip(rolls, maxValue)[i], DigitsNumber(maxValue)) <= 65535
    ensures Flip(Flip(rolls, maxValue), maxValue) == rolls
  {
    var w := DigitsNumber(maxValue);
    forall i | 0 <= i < |rolls| ensures Flip(Flip(rolls, maxValue), maxValue)[i] == rolls[i] {
      FlipFlipValue(rolls[i], w);
    }
  }

  /** A roll wider than the dice is not restored: 100 flipped as a D20
      roll is 1, and 1 flips to 10. */
  lemma FlipWiderThanDice()
    ensures FlipValue(100, DigitsNumber(20)) == 1
    ensures FlipValue(FlipValue(100, DigitsNumber(20)), DigitsNumber(20)) == 10
  {
    assert NatToString(20) == "20" && NatToString(100) == "100" && NatToString(1) == "1";
    assert DigitsNumber(20) == 2;
    assert Reverse("100") == "001";
    assert DecimalValue("001") == 1 by {
      DecimalValueLeadingZero("01");
      DecimalValueLeadingZero("1");
    }
    assert PadLeft("1", 2) == "01";
    assert Reverse("01") == "10";
    assert DecimalValue("10") == 10 by {
      DecimalValueSnoc("1", '0');
    }
  }

  lemma DigitsOfExamples()
    ensures DigitsNumber(20) == 2 && DigitsNumber(100) == 3
  {
    assert NatToString(20) == "20" && NatToString(100) == "100";
  }

  lemma FlipOneOfTwo()
    ensures FlipValue(1, 2) == 10
  {
    assert NatToString(1) == "1" && PadLeft("1", 2) == "01" && Reverse("01") == "10";
    DecimalValueSnoc("1", '0');
  }

  lemma FlipFifteenOfTwo()
    ensures FlipValue(15, 2) == 51
  {
    assert NatToString(15) == "15" && PadLeft("15", 2) == "15" && Reverse("15") == "51";
    DecimalValueSnoc("5", '1');
  }

  lemma FlipTwentyOfTwo()
    ensures FlipValue(20, 2) == 2
  {
    assert NatToString(20) == "20" && PadLeft("20", 2) == "20" && Reverse("20") == "02";
    DecimalValueLeadingZero("2");
  }

  lemma FlipOneOfThree()
    ensures FlipValue(1, 3) == 100
  {
    assert NatToString(1) == "1" && PadLeft("1", 3) == "001" && Reverse("001") == "100";
    DecimalValueSnoc("1", '0');
    DecimalValueSnoc("10", '0');
  }

  lemma FlipFifteenOfThree()
    ensures FlipValue(15, 3) == 510
  {
    assert NatToString(15) == "15" && PadLeft("15", 3) == "015" && Reverse("015") == "510";
    DecimalValueSnoc("5", '1');
    DecimalValueSnoc("51", '0');
  }

  lemma FlipTwentyOfThree()
    ensures FlipValue(20, 3) == 20
  {
    assert NatToString(20) == "20" && PadLeft("20", 3) == "020" && Reverse("020") == "020";
    DecimalValueSnoc("2", '0');
    DecimalValueLeadingZero("20");
  }

  /** The source's example of a D20 flip of [1, 15, 20]. */
  lemma FlipD20Example()
    ensures DigitsNumber(20) == 2
    ensures FlipValue(1, 2) == 10 && FlipValue(15, 2) == 51 && FlipValue(20, 2) == 2
  {
    DigitsOfExamples();
    FlipOneOfTwo();
    FlipFifteenOfTwo();
    FlipTwentyOfTwo();
  }

  /** The same example through `flip` itself. */
  lemma FlipD20Rolls(rolls: seq<NumericRoll>)
    requires rolls == [1, 15, 20]
    ensures FlipD20Precondition(rolls)
    ensures Flip(rolls, 20) == [10, 51, 2]
  {
    FlipD20Example();
    var w := DigitsNumber(20);
    assert FlipValue(rolls[0], w) == 10 && FlipValue(rolls[1], w) == 51 && FlipValue(rolls[2], w) == 2;
    var r := Flip(rolls, 20);
    assert r[0] == 10 && r[1] == 51 && r[2] == 2;
  }

  predicate FlipD20Precondition(rolls: seq<NumericRoll>)
  {
    forall i :: 0 <= i < |rolls| ==> FlipValue(rolls[i], DigitsNumber(20)) <= 65535
  }

  /** The source's example of a D100 flip of [1, 15, 20], roll by roll. */
  lemma FlipD100Example()
    ensures DigitsNumber(100) == 3
    ensures FlipValue(1, 3) == 100 && FlipValue(15, 3) == 510 && FlipValue(20, 3) == 20
  {
    DigitsOfExamples();
    FlipOneOfThree();
    FlipFifteenOfThree();
    FlipTwentyOfThree();
  }

  // ---------------------------------------------------------------------
  // Explode

  /** The explosion ends within `fuel` calls of the dice: some batch has no
      rolls. Each batch has as many rolls as the previous one has matches,
      counted modulo 256 as the source's cast to `u8` does. */
  predicate ExplodeStops<T(==)>(rolls: seq<T>, roll: Roller<T>, t: T, k: nat, fuel: nat)
    decreases fuel
  {
    rolls == [] || (fuel > 0 && ExplodeStops(roll(k, CountOf(rolls, t) % 256), roll, t, k + 1, fuel - 1))
  }

  /** `explode`: the rolls, then the explosion of a new batch of one roll
      per match, made by the dice's k-th call. An empty batch ends it. */
  function Exploded<T(==)>(rolls: seq<T>, roll: Roller<T>, t: T, k: nat, fuel: nat): (r: seq<T>)
    requires ExplodeStops(rolls, roll, t, k, fuel)
    ensures rolls == [] ==> r == []
    ensures |r| >= |rolls| && r[..|rolls|] == rolls
    decreases fuel
  {
    if rolls == [] then []
    else rolls + Exploded(roll(k, CountOf(rolls, t) % 256), roll, t, k + 1, fuel - 1)
  }

  /** The fuel only bounds the proof: any two bounds that reach the end give
      the same rolls. */
  lemma {:induction false} ExplodedFuelIrrelevant<T>(rolls: seq<T>, roll: Roller<T>, t: T, k: nat, f1: nat, f2: nat)
    requires ExplodeStops(rolls, roll, t, k, f1) && ExplodeStops(rolls, roll, t, k, f2)
    ensures Exploded(rolls, roll, t, k, f1) == Exploded(rolls, roll, t, k, f2)
    decreases f1
  {
    if rolls != [] {
      ExplodedFuelIrrelevant(roll(k, CountOf(rolls, t) % 256), roll, t, k + 1, f1 - 1, f2 - 1);
    }
  }

  /** Rolls without a match do not explode: the dice is called once for no
      rolls and the result is the rolls themselves. */
  lemma ExplodeNoMatch<T>(rolls: seq<T>, roll: Roller<T>, t: T, k: nat)
    requires Sized(roll)
    requires CountOf(rolls, t) == 0
    ensures ExplodeStops(rolls, roll, t, k, 1)
    ensures Exploded(rolls, roll, t, k, 1) == rolls
  {
    assert |roll(k, 0)| == 0;
  }

  /** With a dice that never shows the trigger, the rolls explode once: one
      batch of one roll per match, taken from a single call. */
  lemma ExplodeOnce<T>(rolls: seq<T>, roll: Roller<T>, t: T, k: nat)
    requires Sized(roll)
    requires forall j: nat, n: nat :: t !in roll(j, n)
    ensures ExplodeStops(rolls, roll, t, k, 2)
    ensures Exploded(rolls, roll, t, k, 2) == if rolls == [] then [] else rolls + roll(k, CountOf(rolls, t) % 256)
  {
    if rolls != [] {
      var batch := roll(k, CountOf(rolls, t) % 256);
      NoMatchCount(batch, t);
      ExplodeNoMatch(batch, roll, t, k + 1);
    }
  }

  lemma {:induction false} NoMatchCount<T>(s: seq<T>, t: T)
    requires t !in s
    ensures CountOf(s, t) == 0
    decreases |s|
  {
    if s != [] {
      NoMatchCount(s[..|s| - 1], t);
    }
  }

  lemma {:induction false} CountOfConst<T>(n: nat, t: T)
    ensures CountOf(seq(n, _ => t), t) == n
    decreases n
  {
    if n > 0 {
      assert seq(n, _ => t)[..n - 1] == seq(n - 1, _ => t);
      CountOfConst(n - 1, t);
    }
  }

  /** The warning of the source: a constant dice showing the trigger makes
      every batch as large as the one before, so no fuel is enough. */
  lemma {:induction false} ConstTriggerNeverStops<T>(rolls: seq<T>, t: T, k: nat, fuel: nat)
    requires CountOf(rolls, t) % 256 != 0
    ensures !ExplodeStops(rolls, ConstRoller(t), t, k, fuel)
    decreases fuel
  {
    if fuel > 0 {
      var n := CountOf(rolls, t) % 256;
      var batch := ConstRoller(t)(k, n);
      assert batch == seq(n, _ => t);
      CountOfConst(n, t);
      ConstTriggerNeverStops(batch, t, k + 1, fuel - 1);
    }
  }

  /** The source's example: a constant 4 answers the single 2. */
  lemma ExplodeConstExample()
    ensures ExplodeStops<NumericRoll>([1, 2, 3], ConstRoller(4), 2, 0, 2)
    ensures Exploded<NumericRoll>([1, 2, 3], ConstRoller(4), 2, 0, 2) == [1, 2, 3, 4]
  {
    var roll := ConstRoller<NumericRoll>(4);
    var rolls: seq<NumericRoll> := [1, 2, 3];
    assert rolls[..2] == [1, 2] && rolls[..2][..1] == [1];
    assert CountOf(rolls, 2) == 1;
    assert roll(0, 1) == [4];
    assert CountOf([4], 2) == 0;
    assert roll(1, 0) == [];
  }

  /** The source's test: [1, 2] repeating, trigger 2; the two 2s bring
      [1, 2], whose 2 brings [1], which has none. */
  lemma ExplodeRepeatingExample()
    ensures ExplodeStops<NumericRoll>([1, 2, 3, 2, 1], RepeatingRoller([1, 2]), 2, 0, 3)
    ensures Exploded<NumericRoll>([1, 2, 3, 2, 1], RepeatingRoller([1, 2]), 2, 0, 3) == [1, 2, 3, 2, 1, 1, 2, 1]
  {
    var roll := RepeatingRoller<NumericRoll>([1, 2]);
    var rolls: seq<NumericRoll> := [1, 2, 3, 2, 1];
    var p1: seq<NumericRoll>, p2: seq<NumericRoll>, p3: seq<NumericRoll>, p4: seq<NumericRoll> := [1], [1, 2], [1, 2, 3], [1, 2, 3, 2];
    assert CountOf(p1, 2) == 0;
    assert p2[..1] == p1;
    assert CountOf(p2, 2) == 1;
    assert p3[..2] == p2;
    assert CountOf(p3, 2) == 1;
    assert p4[..3] == p3;
    assert CountOf(p4, 2) == 2;
    assert rolls[..4] == p4;
    assert CountOf(rolls, 2) == 2;
    assert roll(0, 2) == [1, 2];
    assert CountOf([1, 2], 2) == 1 by {
      assert [1, 2][..1] == [1];
    }
    assert roll(1, 1) == [1];
    assert CountOf([1], 2) == 0;
    assert roll(2, 0) == [];
  }

  // ---------------------------------------------------------------------
  // Total

  /** `Rolls` of this revision: numeric values, text symbols, or the text
      of an aggregation. */
  datatype Rolls = NumericRolls(values: seq<NumericRoll>) | TextRolls(symbols: seq<char>) | Aggregation(value: string)

  predicate AllNumeric(rolls: seq<Rolls>)
  {
    forall i :: 0 <= i < |rolls| ==> rolls[i].NumericRolls?
  }

  /** All the values, request after request. */
  function Flatten(rolls: seq<Rolls>): (r: seq<NumericRoll>)
    requires AllNumeric(rolls)
  {
    if rolls == [] then [] else Flatten(rolls[..|rolls| - 1]) + rolls[|rolls| - 1].values
  }

  /** Each request's sum. */
  function Subtotals(rolls: seq<Rolls>): (r: seq<nat>)
    requires AllNumeric(rolls)
    ensures |r| == |rolls|
    ensures forall i :: 0 <= i < |rolls| ==> r[i] == SeqSum(rolls[i].values)
  {
    seq(|rolls|, i requires 0 <= i < |rolls| => SeqSum(rolls[i].values))
  }

  const NoDiceMessage: string := "No dice to total :("
  const NonNumericMessage: string := "Impossible to compute a sum for non numerical rolls."

  /** One "request: subtotal" entry per request, in order. */
  function DetailEntries(rolls: seq<Rolls>, dice: seq<Io.DiceRequest>): (r: seq<string>)
    requires AllNumeric(rolls) && |dice| >= |rolls|
    ensures |r| == |rolls|
  {
    var subtotals := Subtotals(rolls);
    seq(|rolls|, i requires 0 <= i < |rolls| =>
      Io.DiceRequestToString(dice[i]) + ": " + NatToString(subtotals[i]))
  }

  /** The detail line: the entries separated by ", ". */
  function TotalDetail(rolls: seq<Rolls>, dice: seq<Io.DiceRequest>): (s: string)
    requires AllNumeric(rolls) && |dice| >= |rolls|
    ensures s == [] <==> rolls == []
  {
    Join(DetailEntries(rolls, dice), ", ")
  }

  /** The text of a total: the grand total, then a line with the detail. */
  function TotalText(rolls: seq<Rolls>, dice: seq<Io.DiceRequest>): (s: string)
    requires AllNumeric(rolls) && |dice| >= |rolls|
    ensures '\n' in s
  {
    NatToString(SeqSum(Flatten(rolls))) + "\nDetail: " + TotalDetail(rolls, dice)
  }

  /** `total`: the sum of every roll of every request, then the detail.
      The source looks up one request per rolls entry and panics without
      it, and a sum past `u16` overflows. */
  function TotalRolls(rolls: seq<Rolls>, dice: seq<Io.DiceRequest>): (r: Result<Rolls>)
    requires AllNumeric(rolls) ==> |dice| >= |rolls| && SeqSum(Flatten(rolls)) <= 65535
    ensures rolls == [] ==> r == Ok(Aggregation(NoDiceMessage))
    ensures r.Err? <==> rolls != [] && !AllNumeric(rolls)
    ensures r.Err? ==> r.error == Error(IncompatibleAction(NonNumericMessage))
    ensures r.Ok? ==> r.value.Aggregation?
  {
    if rolls == [] then Ok(Aggregation(NoDiceMessage))
    else if !AllNumeric(rolls) then Err(Error(IncompatibleAction(NonNumericMessage)))
    else Ok(Aggregation(TotalText(rolls, dice)))
  }

  /** The grand total is the sum of the subtotals. */
  lemma {:induction false} FlattenSum(rolls: seq<Rolls>)
    requires AllNumeric(rolls)
    ensures SeqSum(Flatten(rolls)) == SeqSum(Subtotals(rolls))
    decreases |rolls|
  {
    if rolls != [] {
      var init := rolls[..|rolls| - 1];
      FlattenSum(init);
      SeqSumAppend(Flatten(init), rolls[|rolls| - 1].values);
      assert Subtotals(rolls)[..|rolls| - 1] == Subtotals(init);
    }
  }

  /** The first line of a total reads back, as a `u16`, as the sum of every
      roll, which is also the sum of the per-request subtotals. */
  lemma TotalFirstLine(rolls: seq<Rolls>, dice: seq<Io.DiceRequest>)
    requires rolls != [] && AllNumeric(rolls)
    requires |dice| >= |rolls| && SeqSum(Flatten(rolls)) <= 65535
    ensures TotalRolls(rolls, dice).Ok?
    ensures var lines := Split(TotalRolls(rolls, dice).value.value, '\n');
      && |lines| >= 2
      && U16FromStr(lines[0]) == Ok(SeqSum(Flatten(rolls)))
      && SeqSum(Flatten(rolls)) == SeqSum(Subtotals(rolls))
  {
    var total := SeqSum(Flatten(rolls));
    FirstLine(NatToString(total), TotalDetail(rolls, dice));
    ParseNatToString(total, U16_MAX);
    FlattenSum(rolls);
  }

  /** A number, a line break and "Detail: ": the number is the first line,
      whatever follows. */
  lemma FirstLine(first: string, d: string)
    requires AllDigits(first)
    ensures var lines := Split(first + "\nDetail: " + d, '\n'); |lines| >= 2 && lines[0] == first
  {
    assert '\n' !in first by {
      assert forall i :: 0 <= i < |first| ==> IsDigit(first[i]);
    }
    assert "\nDetail: " == ['\n'] + "Detail: ";
    assert first + "\nDetail: " + d == first + ['\n'] + ("Detail: " + d);
    SplitFirst(first, '\n', "Detail: " + d);
  }

  /** The second line of a total is the detail: after "Detail: ", for each
      request in order, its display, ": " and the sum of its own rolls, the
      entries separated by ", ". Each of those sums fits a `u16`, as the
      source's per-request `sum()` needs, because it is at most the grand
      total. The line is the last one when no request displays a line
      break. */
  lemma TotalDetailLine(rolls: seq<Rolls>, dice: seq<Io.DiceRequest>)
    requires rolls != [] && AllNumeric(rolls)
    requires |dice| >= |rolls| && SeqSum(Flatten(rolls)) <= 65535
    requires forall i :: 0 <= i < |rolls| ==> '\n' !in Io.DiceRequestToString(dice[i])
    ensures TotalRolls(rolls, dice).Ok?
    ensures var lines := Split(TotalRolls(rolls, dice).value.value, '\n');
      && |lines| == 2
      && |lines[1]| >= 8 && lines[1][..8] == "Detail: "
      && lines[1][8..] == Join(DetailEntries(rolls, dice), ", ")
    ensures forall i :: 0 <= i < |rolls| ==>
      DetailEntries(rolls, dice)[i] == Io.DiceRequestToString(dice[i]) + ": " + NatToString(SeqSum(rolls[i].values))
    ensures forall i :: 0 <= i < |rolls| ==> SeqSum(rolls[i].values) <= 65535
  {
    DetailNoLineBreak(rolls, dice);
    TotalLines(rolls, dice);
    SubtotalsFit(rolls);
  }

  lemma DetailNoLineBreak(rolls: seq<Rolls>, dice: seq<Io.DiceRequest>)
    requires AllNumeric(rolls) && |dice| >= |rolls|
    requires forall i :: 0 <= i < |rolls| ==> '\n' !in Io.DiceRequestToString(dice[i])
    ensures '\n' !in TotalDetail(rolls, dice)
  {
    var entries := DetailEntries(rolls, dice);
    forall i | 0 <= i < |entries| ensures '\n' !in entries[i] {
      var shown := NatToString(Subtotals(rolls)[i]);
      assert AllDigits(shown);
      assert entries[i] == Io.DiceRequestToString(dice[i]) + ": " + shown;
    }
    JoinAvoids(entries, ", ", '\n');
  }

  lemma TotalLines(rolls: seq<Rolls>, dice: seq<Io.DiceRequest>)
    requires rolls != [] && AllNumeric(rolls)
    requires |dice| >= |rolls| && SeqSum(Flatten(rolls)) <= 65535
    requires '\n' !in TotalDetail(rolls, dice)
    ensures Split(TotalText(rolls, dice), '\n') == [NatToString(SeqSum(Flatten(rolls))), "Detail: " + TotalDetail(rolls, dice)]
  {
    TwoLines(NatToString(SeqSum(Flatten(rolls))), TotalDetail(rolls, dice));
  }

  /** A number, a line break, "Detail: " and a text without line breaks
      make two lines. */
  lemma TwoLines(first: string, d: string)
    requires AllDigits(first) && '\n' !in d
    ensures Split(first + "\nDetail: " + d, '\n') == [first, "Detail: " + d]
  {
    var rest := "Detail: " + d;
    assert '\n' !in first by {
      assert forall i :: 0 <= i < |first| ==> IsDigit(first[i]);
    }
    DetailHeaderNoLineBreak(d);
    assert "\nDetail: " == ['\n'] + "Detail: ";
    assert first + "\nDetail: " + d == first + ['\n'] + rest;
    SplitAround(first, '\n', rest);
  }

  lemma DetailHeaderNoLineBreak(d: string)
    requires '\n' !in d
    ensures '\n' !in "Detail: " + d
  {
    var h := "Detail: ";
    forall i | 0 <= i < |h| ensures h[i] != '\n' {
    }
  }

  lemma SubtotalsFit(rolls: seq<Rolls>)
    requires AllNumeric(rolls) && SeqSum(Flatten(rolls)) <= 65535
    ensures forall i :: 0 <= i < |rolls| ==> SeqSum(rolls[i].values) <= 65535
  {
    FlattenSum(rolls);
    forall i | 0 <= i < |rolls| ensures SeqSum(rolls[i].values) <= 65535 {
      SeqSumBound(Subtotals(rolls), i);
    }
  }

  // ---------------------------------------------------------------------
  // Count

  /** The map loop of `count`: a counter per roll seen, one less than the
      number of times it was seen. */
  method CountMap<T(==)>(rolls: seq<T>) returns (counters: map<T, NumericRoll>)
    requires forall x | x in multiset(rolls) :: multiset(rolls)[x] <= 65536
    ensures forall x :: x in counters <==> x in rolls
    ensures forall x | x in counters :: counters[x] as int + 1 == multiset(rolls)[x]
  {
    counters := map[];
    for i := 0 to |rolls|
      invariant forall x :: x in counters <==> x in rolls[..i]
      invariant forall x | x in counters :: counters[x] as int + 1 == multiset(rolls[..i])[x]
    {
      assert rolls[..i + 1] == rolls[..i] + [rolls[i]];
      var x := rolls[i];
      if x in counters {
        PrefixMultiplicity(rolls, i + 1, x);
        counters := counters[x := counters[x] + 1];
      } else {
        counters := counters[x := 0];
      }
    }
    assert rolls[..|rolls|] == rolls;
  }

  lemma PrefixMultiplicity<T>(rolls: seq<T>, n: nat, x: T)
    requires n <= |rolls|
    ensures multiset(rolls[..n])[x] <= multiset(rolls)[x]
  {
    assert rolls == rolls[..n] + rolls[n..];
  }

  /** `count`: a counter per distinct roll, 0 at its first sight and one
      more at each repeat; the counters come out in the map's order. The
      counters are `u16`, so no value may occur more than 65536 times. */
  method Count<T(==)>(rolls: seq<T>) returns (r: seq<NumericRoll>, ghost keys: seq<T>)
    requires forall x | x in multiset(rolls) :: multiset(rolls)[x] <= 65536
    ensures |r| == |keys|
    ensures forall i, j :: 0 <= i < j < |keys| ==> keys[i] != keys[j]
    ensures forall x :: x in rolls <==> x in keys
    ensures forall i :: 0 <= i < |keys| ==> r[i] as int + 1 == multiset(rolls)[keys[i]]
  {
    var counters := CountMap(rolls);
    r, keys := [], [];
    var left := counters.Keys;
    while left != {}
      invariant left <= counters.Keys
      invariant |r| == |keys|
      invariant forall i :: 0 <= i < |keys| ==> keys[i] in counters && keys[i] !in left
      invariant forall x | x in counters :: x in left || x in keys
      invariant forall i, j :: 0 <= i < j < |keys| ==> keys[i] != keys[j]
      invariant forall i :: 0 <= i < |keys| ==> r[i] == counters[keys[i]]
      decreases left
    {
      var x :| x in left;
      r, keys := r + [counters[x]], keys + [x];
      left := left - {x};
    }
  }

  /** The counters add up to the number of rolls minus the number of
      distinct values. */
  lemma {:induction false} CountTotal<T>(rolls: seq<T>, r: seq<NumericRoll>, keys: seq<T>)
    requires |r| == |keys|
    requires forall i, j :: 0 <= i < j < |keys| ==> keys[i] != keys[j]
    requires forall x :: x in rolls <==> x in keys
    requires forall i :: 0 <= i < |keys| ==> r[i] as int + 1 == multiset(rolls)[keys[i]]
    ensures SeqSum(r) + |keys| == |rolls|
    decreases |keys|
  {
    if keys != [] {
      var x := keys[|keys| - 1];
      var rest := Without(rolls, x);
      assert multiset(rest) == multiset(rolls)[x := 0];
      forall y ensures y in rest <==> y in keys[..|keys| - 1] {
        assert y in rest <==> y in multiset(rest);
        assert y in rolls <==> y in multiset(rolls);
      }
      forall i | 0 <= i < |keys| - 1 ensures r[i] as int + 1 == multiset(rest)[keys[i]] {
      }
      CountTotal(rest, r[..|r| - 1], keys[..|keys| - 1]);
      assert |rolls| == |multiset(rolls)| == |multiset(rest)| + multiset(rolls)[x];
      assert r == r[..|r| - 1] + [r[|r| - 1]];
    } else {
      assert multiset(rolls) == multiset{} by {
        forall x ensures multiset(rolls)[x] == 0 {
          assert x !in keys;
        }
      }
    }
  }

  /** The rolls without any copy of x. */
  function Without<T(==)>(s: seq<T>, x: T): (r: seq<T>)
    ensures multiset(r) == multiset(s)[x := 0]
  {
    if s == [] then []
    else
      assert s == [s[0]] + s[1..];
      (if s[0] == x then [] else [s[0]]) + Without(s[1..], x)
  }

  // ---------------------------------------------------------------------
  // Action display

  function FudgeRollDebug(f: Dice.FudgeRoll): string
  {
    match f
    case Plus => "Plus"
    case Minus => "Minus"
    case Blank => "Blank"
  }

  /** The variant name the `Debug` form starts with. */
  function ActionName(a: Action): string
  {
    match a
    case Identity => "Identity"
    case CountValues => "CountValues"
    case RerollNumeric(_) => "RerollNumeric"
    case RerollFudge(_) => "RerollFudge"
    case Sum => "Sum"
    case Total => "Total"
    case MultiplyBy(_) => "MultiplyBy"
    case FlipFlop => "FlipFlop"
    case Explode(_) => "Explode"
  }

  /** The argument in parentheses, or nothing for a variant without one. */
  function ActionArgument(a: Action): string
  {
    match a
    case RerollNumeric(v) => "(" + NatToString(v) + ")"
    case RerollFudge(f) => "(" + FudgeRollDebug(f) + ")"
    case MultiplyBy(v) => "(" + NatToString(v) + ")"
    case Explode(v) => "(" + NatToString(v) + ")"
    case _ => ""
  }

  /** `Display for Action`, which writes the derived `Debug` form. */
  function ActionToString(a: Action): (s: string)
    ensures |s| >= |ActionName(a)| && s[..|ActionName(a)|] == ActionName(a)
  {
    ActionName(a) + ActionArgument(a)
  }

  /** The text before the first parenthesis names the variant. */
  lemma ActionNameRead(a: Action)
    ensures Split(ActionToString(a), '(')[0] == ActionName(a)
  {
    var name := ActionName(a);
    var arg := ActionArgument(a);
    NameHasNoParenthesis(a);
    if arg == [] {
      assert ActionToString(a) == name;
      SplitNoSeparator(name, '(');
    } else {
      assert arg[0] == '(';
      assert ActionToString(a) == name + ['('] + arg[1..];
      SplitFirst(name, '(', arg[1..]);
    }
  }

  lemma NameHasNoParenthesis(a: Action)
    ensures '(' !in ActionName(a)
  {
  }

  lemma ActionNameInjective(a: Action, b: Action)
    requires ActionName(a) == ActionName(b)
    ensures a.Identity? == b.Identity? && a.CountValues? == b.CountValues?
    ensures a.RerollNumeric? == b.RerollNumeric? && a.RerollFudge? == b.RerollFudge?
    ensures a.Sum? == b.Sum? && a.Total? == b.Total? && a.MultiplyBy? == b.MultiplyBy?
    ensures a.FlipFlop? == b.FlipFlop? && a.Explode? == b.Explode?
  {
  }

  /** Two actions that display alike are the same action. */
  lemma ActionToStringInjective(a: Action, b: Action)
    requires ActionToString(a) == ActionToString(b)
    ensures a == b
  {
    ActionNameRead(a);
    ActionNameRead(b);
    var n := |ActionName(a)|;
    assert ActionArgument(a) == ActionToString(a)[n..];
    assert ActionArgument(b) == ActionToString(b)[n..];
    ActionArgumentInjective(a, b);
  }

  /** Of two actions of the same variant, equal arguments mean equal actions. */
  lemma ActionArgumentInjective(a: Action, b: Action)
    requires ActionName(a) == ActionName(b) && ActionArgument(a) == ActionArgument(b)
    ensures a == b
  {
    ActionNameInjective(a, b);
    match a
    case RerollNumeric(v) => NumberArgumentInjective(v, b.rerolled);
    case MultiplyBy(v) => NumberArgumentInjective(v, b.factor);
    case Explode(v) => NumberArgumentInjective(v, b.trigger);
    case RerollFudge(f) =>
      var s := ActionArgument(a);
      assert s[1..|s| - 1] == FudgeRollDebug(f);
      assert s == ActionArgument(b);
      assert s[1..|s| - 1] == FudgeRollDebug(b.fudge);
    case _ =>
  }

  lemma NumberArgumentInjective(v: nat, w: nat)
    requires "(" + NatToString(v) + ")" == "(" + NatToString(w) + ")"
    ensures v == w
  {
    var s := "(" + NatToString(v) + ")";
    assert s[1..|s| - 1] == NatToString(v);
    assert s[1..|s| - 1] == NatToString(w);
    NatToStringInjective(v, w);
  }

  /** The derived `Debug` forms. */
  lemma ActionToStringExamples()
    ensures ActionToString(Identity) == "Identity"
    ensures ActionToString(RerollFudge(Dice.Plus)) == "RerollFudge(Plus)"
    ensures ActionToString(Explode(6)) == "Explode(6)"
  {
    assert NatToString(6) == "6";
  }
}
