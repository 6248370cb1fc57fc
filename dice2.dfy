/** The later revision of the dice model (src/dice2.rs): counts of rolls
    are `u16`, a request's records start empty, and sessions group the
    records of several requests and render them as text. */
module Dice2 {
  import opened Text
  import D = Dice
  import Write

  type DiceNumber = D.DiceNumber
  type NumericRoll = D.NumericRoll
  type FudgeRoll = D.FudgeRoll
  type FudgeDice = D.FudgeDice

  /** This revision's numeric dice: no aggregation variant. */
  datatype NumericDice =
    | ConstDice(constValue: NumericRoll)
    | NumberedDice(sides: NumericRoll)
    | RepeatingDice(values: seq<NumericRoll>)

  /** `get_max_value`: total on this revision's dice. */
  function GetMaxValue(d: NumericDice): (m: NumericRoll)
    ensures d.ConstDice? ==> m == d.constValue
    ensures d.NumberedDice? ==> m == d.sides
    ensures d.RepeatingDice? ==> (forall i :: 0 <= i < |d.values| ==> d.values[i] <= m)
                                 && (d.values == [] ==> m == 0)
                                 && (d.values != [] ==> m in d.values)
  {
    match d
    case ConstDice(v) => v
    case NumberedDice(sides) => sides
    case RepeatingDice(values) => D.MaxOrZero(values)
  }

  /** `roll_repeating` with a `u16` count: one copy of the values, then
      n / |values| more appended by a `for` loop, cut to the first n. */
  method RollRepeating<T>(n: NumericRoll, values: seq<T>) returns (r: seq<T>)
    requires |values| > 0
    ensures r == D.Cycle(values, n)
  {
    var repeatValues := values;
    var copies := n / |values|;
    assert repeatValues == D.Repeat(values, 1);
    for k := 0 to copies
      invariant repeatValues == D.Repeat(values, k + 1)
    {
      repeatValues := repeatValues + values;
    }
    D.DivMod(n, |values|, copies, n % |values|);
    r := repeatValues[..n];
    forall i | 0 <= i < n ensures r[i] == D.Cycle(values, n)[i] {
      D.RepeatAt(values, copies + 1, i);
    }
  }

  /** `roll_const_dice` with a `u16` count: `n + 1` overflows at 65535. */
  function RollConstDice<T>(n: NumericRoll, value: T): (r: seq<T>)
    requires n < 65535
    ensures |r| == n
    ensures forall i :: 0 <= i < |r| ==> r[i] == value
  {
    if n == 0 then [] else RollConstDice(n - 1, value) + [value]
  }

  /** What rolling n of a numeric dice of this revision may give. */
  ghost predicate PossibleNumericRolls(n: nat, d: NumericDice, r: seq<NumericRoll>)
  {
    |r| == n &&
    match d
    case ConstDice(v) => forall i :: 0 <= i < n ==> r[i] == v
    case NumberedDice(sides) => forall i :: 0 <= i < n ==> 1 <= r[i] <= sides
    case RepeatingDice(values) => |values| > 0 && r == D.Cycle(values, n)
  }

  /** What the source needs to roll n of a dice without panicking. */
  predicate CanRollNumeric(n: NumericRoll, d: NumericDice)
  {
    match d
    case ConstDice(_) => n < 65535
    case NumberedDice(sides) => n < 65535 && (n == 0 || 1 <= sides < 65535)
    case RepeatingDice(values) => |values| > 0
  }

  predicate CanRollFudge(n: NumericRoll, d: FudgeDice)
  {
    match d
    case FudgeDice => n < 65535
    case ConstDice(_) => n < 65535
    case RepeatingDice(values) => |values| > 0
  }

  /** The generator object of this revision. */
  class Dice {
    var rng: nat

    constructor ()
    {
      rng := 0x2545F491;
    }

    /** `rng.gen_range(low, high)`: some value in [low, high). */
    method GenRange(low: nat, high: nat) returns (v: nat)
      requires low < high
      modifies this
      ensures low <= v < high
    {
      v := low + rng % (high - low);
      rng := (rng * 6364136223846793005 + 1442695040888963407) % 0x1_0000_0000_0000_0000;
    }

    /** `roll_numbered_dice`: n draws from [1, sides]. */
    method RollNumberedDice(n: NumericRoll, sides: NumericRoll) returns (r: seq<NumericRoll>)
      requires n < 65535 && (n == 0 || 1 <= sides < 65535)
      modifies this
      ensures |r| == n
      ensures forall i :: 0 <= i < n ==> 1 <= r[i] <= sides
    {
      r := [];
      while |r| < n
        invariant |r| <= n
        invariant forall i :: 0 <= i < |r| ==> 1 <= r[i] <= sides
      {
        var v := GenRange(1, sides + 1);
        r := r + [v];
      }
    }

    /** `roll_fudge_dice`: n draws from [1, 4), 1 blank, 2 plus, else minus. */
    method RollFudgeDice(n: NumericRoll) returns (r: seq<FudgeRoll>, ghost draws: seq<nat>)
      requires n < 65535
      modifies this
      ensures |r| == n && |draws| == n
      ensures forall i :: 0 <= i < n ==> 1 <= draws[i] < 4 && r[i] == D.FudgeOfDraw(draws[i])
    {
      r, draws := [], [];
      while |r| < n
        invariant |r| == |draws| <= n
        invariant forall i :: 0 <= i < |r| ==> 1 <= draws[i] < 4 && r[i] == D.FudgeOfDraw(draws[i])
      {
        var draw := GenRange(1, 4);
        r, draws := r + [D.FudgeOfDraw(draw)], draws + [draw];
      }
    }

    /** `roll_numeric_dice`: each variant to its helper. */
    method RollNumericDice(n: NumericRoll, d: NumericDice) returns (r: seq<NumericRoll>)
      requires CanRollNumeric(n, d)
      modifies this
      ensures PossibleNumericRolls(n, d, r)
      ensures !d.NumberedDice? ==> rng == old(rng)
    {
      match d {
        case ConstDice(v) =>
          r := RollConstDice(n, v);
        case NumberedDice(sides) =>
          r := RollNumberedDice(n, sides);
        case RepeatingDice(values) =>
          r := RollRepeating(n, values);
      }
    }

    /** `roll_fudgey_dice`: each variant to its helper. */
    method RollFudgeyDice(n: NumericRoll, d: FudgeDice) returns (r: seq<FudgeRoll>)
      requires CanRollFudge(n, d)
      modifies this
      ensures D.PossibleFudgeRolls(n, d, r)
      ensures !d.FudgeDice? ==> rng == old(rng)
    {
      match d {
        case FudgeDice =>
          ghost var draws;
          r, draws := RollFudgeDice(n);
        case ConstDice(v) =>
          r := RollConstDice(n, v);
        case RepeatingDice(values) =>
          r := RollRepeating(n, values);
      }
    }
  }

  /** `DiceRequest<T>`: how many of which dice. */
  datatype DiceRequest<T> = DiceRequest(number: DiceNumber, dice: T)

  /** `RollResults<T, V>`: a request, its description and its rolls. */
  datatype RollResults<T, V> = RollResults(dice: DiceRequest<V>, description: string, rolls: seq<T>)

  type NumericResults = RollResults<NumericRoll, NumericDice>
  type FudgeResults = RollResults<FudgeRoll, FudgeDice>

  /** This revision's dice seen as the shapes the writer renders. */
  function AsWritten(d: NumericDice): (w: D.NumericDice)
    ensures !w.AggregationResult?
    ensures GetMaxValue(d) == D.GetMaxValue(w)
  {
    match d
    case ConstDice(v) => D.NumericDice.ConstDice(v)
    case NumberedDice(sides) => D.NumberedDice(sides)
    case RepeatingDice(values) => D.NumericDice.RepeatingDice(values)
  }

  /** The display of a numeric request: the count, then the dice. */
  function NumericRequestText(r: DiceRequest<NumericDice>): string
  {
    Write.NumericRequestToString(D.RollRequest(r.number, AsWritten(r.dice)))
  }

  function FudgeRequestText(r: DiceRequest<FudgeDice>): string
  {
    Write.FudgeRequestToString(D.RollRequest(r.number, r.dice))
  }

  /** `RollResults::new` for numeric dice: no rolls yet, described by the
      request's display. */
  function NewNumericResults(request: DiceRequest<NumericDice>): (r: NumericResults)
    ensures r.dice == request && r.rolls == []
    ensures r.description == NumericRequestText(request)
  {
    RollResults(request, NumericRequestText(request), [])
  }

  /** `RollResults::new` for fudge dice. */
  function NewFudgeResults(request: DiceRequest<FudgeDice>): (r: FudgeResults)
    ensures r.dice == request && r.rolls == []
    ensures r.description == FudgeRequestText(request)
  {
    RollResults(request, FudgeRequestText(request), [])
  }

  /** The display of one record: description, ": ", the rolls. */
  function ResultsLine<T, V>(r: RollResults<T, V>, show: T -> string): string
  {
    Write.RollsLine(r.description, r.rolls, show)
  }

  /** The records' displays one after another, with no separator. */
  function Concat(parts: seq<string>): string
  {
    if parts == [] then [] else parts[0] + Concat(parts[1..])
  }

  /** `get_results` of a session: its records' lines concatenated. */
  function SessionText<T, V>(rolls: seq<RollResults<T, V>>, show: T -> string): (s: string)
    ensures s == [] <==> rolls == []
  {
    var lines := seq(|rolls|, i requires 0 <= i < |rolls| => ResultsLine(rolls[i], show));
    ConcatEmpty(lines);
    Concat(lines)
  }

  /** A concatenation is empty exactly when every piece is. */
  lemma {:induction false} ConcatEmpty(parts: seq<string>)
    ensures Concat(parts) == [] <==> forall i :: 0 <= i < |parts| ==> parts[i] == []
    decreases |parts|
  {
    if parts != [] {
      ConcatEmpty(parts[1..]);
      assert forall i :: 1 <= i < |parts| ==> parts[i] == parts[1..][i - 1];
    }
  }

  /** The records `RollSession::new` builds: one per request, in order. */
  function NewNumericRecords(requests: seq<DiceRequest<NumericDice>>): (r: seq<NumericResults>)
    ensures |r| == |requests|
    ensures forall i :: 0 <= i < |r| ==> r[i] == NewNumericResults(requests[i])
  {
    seq(|requests|, i requires 0 <= i < |requests| => NewNumericResults(requests[i]))
  }

  function NewFudgeRecords(requests: seq<DiceRequest<FudgeDice>>): (r: seq<FudgeResults>)
    ensures |r| == |requests|
    ensures forall i :: 0 <= i < |r| ==> r[i] == NewFudgeResults(requests[i])
  {
    seq(|requests|, i requires 0 <= i < |requests| => NewFudgeResults(requests[i]))
  }

  /** `RollSession<NumericRoll, NumericDice>`: the records and the generator
      that will roll them. */
  class NumericRollSession {
    var rolls: seq<NumericResults>
    var dice: Dice

    /** `RollSession::new`: one fresh record per request, a new generator. */
    constructor (requests: seq<DiceRequest<NumericDice>>)
      ensures rolls == NewNumericRecords(requests)
      ensures fresh(dice)
    {
      rolls := NewNumericRecords(requests);
      dice := new Dice();
    }

    /** `get_results`: empty exactly when there are no records. */
    function GetResults(): (s: string)
      reads this
      ensures s == [] <==> rolls == []
    {
      SessionText(rolls, Write.NumericRollToString)
    }
  }

  /** `RollSession<FudgeRoll, FudgeDice>`. */
  class FudgeRollSession {
    var rolls: seq<FudgeResults>
    var dice: Dice

    constructor (requests: seq<DiceRequest<FudgeDice>>)
      ensures rolls == NewFudgeRecords(requests)
      ensures fresh(dice)
    {
      rolls := NewFudgeRecords(requests);
      dice := new Dice();
    }

    function GetResults(): (s: string)
      reads this
      ensures s == [] <==> rolls == []
    {
      SessionText(rolls, Write.FudgeRollToString)
    }
  }

  /** One of the sessions a full session holds (a `Box<dyn Session>`). */
  datatype SubSession = NumericSub(numeric: NumericRollSession) | FudgeSub(fudge: FudgeRollSession)
  {
    function Obj(): object
    {
      if NumericSub? then numeric else fudge
    }

    function GetResults(): string
      reads Obj()
    {
      if NumericSub? then numeric.GetResults() else fudge.GetResults()
    }
  }

  function Objects(subs: seq<SubSession>): set<object>
  {
    set s | s in subs :: s.Obj()
  }

  /** Each subsession's results, in order. */
  function SubResults(subs: seq<SubSession>): (r: seq<string>)
    reads Objects(subs)
    ensures |r| == |subs|
    ensures forall i :: 0 <= i < |subs| ==> r[i] == subs[i].GetResults()
  {
    if subs == [] then [] else [subs[0].GetResults()] + SubResults(subs[1..])
  }

  /** `FullRollSession`: sessions shown one per line. */
  class FullRollSession {
    var subsessions: seq<SubSession>

    constructor (subsessions: seq<SubSession>)
      ensures this.subsessions == subsessions
    {
      this.subsessions := subsessions;
    }

    /** `get_results`: the subsessions' results joined with "\n". */
    function GetResults(): (s: string)
      reads this, Objects(subsessions)
      ensures subsessions == [] ==> s == []
      ensures |subsessions| == 1 ==> s == subsessions[0].GetResults()
    {
      Join(SubResults(subsessions), "\n")
    }
  }

  /** A text made of pieces that avoid c avoids c. */
  lemma {:induction false} ConcatAvoids(parts: seq<string>, c: char)
    requires forall i :: 0 <= i < |parts| ==> c !in parts[i]
    ensures c !in Concat(parts)
    decreases |parts|
  {
    if parts != [] {
      ConcatAvoids(parts[1..], c);
    }
  }

  /** A freshly built numeric session shows each request's display followed
      by ": ", in request order, all on one line. */
  lemma NewNumericSessionText(requests: seq<DiceRequest<NumericDice>>)
    ensures SessionText(NewNumericRecords(requests), Write.NumericRollToString)
         == Concat(seq(|requests|, i requires 0 <= i < |requests| => NumericRequestText(requests[i]) + ": "))
    ensures '\n' !in SessionText(NewNumericRecords(requests), Write.NumericRollToString)
  {
    var records := NewNumericRecords(requests);
    var lines := seq(|records|, i requires 0 <= i < |records| => ResultsLine(records[i], Write.NumericRollToString));
    var heads := seq(|requests|, i requires 0 <= i < |requests| => NumericRequestText(requests[i]) + ": ");
    forall i | 0 <= i < |requests| ensures lines[i] == heads[i] && '\n' !in lines[i] {
      Write.NumericRequestOneLine(D.RollRequest(requests[i].number, AsWritten(requests[i].dice)));
    }
    assert lines == heads;
    ConcatAvoids(lines, '\n');
  }

  /** The same for a fresh fudge session. */
  lemma NewFudgeSessionText(requests: seq<DiceRequest<FudgeDice>>)
    ensures SessionText(NewFudgeRecords(requests), Write.FudgeRollToString)
         == Concat(seq(|requests|, i requires 0 <= i < |requests| => FudgeRequestText(requests[i]) + ": "))
    ensures '\n' !in SessionText(NewFudgeRecords(requests), Write.FudgeRollToString)
  {
    var records := NewFudgeRecords(requests);
    var lines := seq(|records|, i requires 0 <= i < |records| => ResultsLine(records[i], Write.FudgeRollToString));
    var heads := seq(|requests|, i requires 0 <= i < |requests| => FudgeRequestText(requests[i]) + ": ");
    forall i | 0 <= i < |requests| ensures lines[i] == heads[i] && '\n' !in lines[i] {
      Write.FudgeRequestOneLine(D.RollRequest(requests[i].number, requests[i].dice));
    }
    assert lines == heads;
    ConcatAvoids(lines, '\n');
  }

  /** Splitting a full session's text at line breaks gives back each
      subsession's results in subsession order, as long as no subsession
      spans several lines. */
  lemma FullResultsLines(full: FullRollSession)
    requires |full.subsessions| >= 1
    requires forall i :: 0 <= i < |full.subsessions| ==> '\n' !in full.subsessions[i].GetResults()
    ensures Split(full.GetResults(), '\n') == SubResults(full.subsessions)
  {
    SplitJoin(SubResults(full.subsessions), '\n');
  }
}
