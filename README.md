# letsroll in Dafny

A model of the core of *letsroll*, a dice-rolling library and command line
tool written in Rust. It covers:

- the dice and their generator: constant, numbered, repeating and fudge
  (fate) dice;
- the actions applied to rolls: clone, multiply, sum, total, reroll, flip,
  explode and count;
- the readers of the dice notation ("3D6", "D20", "+5", "4F", and a
  space-separated line of them);
- the renderers of dice, requests and rolls.

The repository holds files from several revisions that do not agree on
their types. Each file is modelled in its own module with its own shapes:

| module | file | what it holds |
|---|---|---|
| `Text` | (Rust's standard library) | `u8`/`u16` `to_string` and `FromStr`, `split`, `join`, `trim` |
| `Errors` | src/errors.rs | the error kinds and a `Result` type |
| `Dice` | src/dice.rs | dice, the generator object, requests and rolls |
| `Write` | src/io/write.rs | `Display` for rolls, dice, requests and rolls lines |
| `DiceRolls` | src/dice.rs | `NumericRolls::new` and `FudgeRolls::new`, which need `Write` |
| `Dice2` | src/dice2.rs | the second generator and roll sessions |
| `Io` | src/io.rs | the hand-written notation reader and its displays |
| `Actions` | src/actions.rs | the actions on rolls |
| `Read` | src/io/read.rs | the fudge-symbol parser, the dice and action readers, session assembly |

Modelling choices:

- **Integer widths.** Counts are `u8` (`DiceNumber`) and values are `u16`
  (`NumericRoll`), as bounded subset types. Wherever the source would
  overflow or panic, the operation carries that as a precondition. An `as
  u8` cast is written as `% 256`.
- **The random generator** is a class whose `GenRange` method promises only
  that its draw lies in the asked range. Its body is an arbitrary
  congruential step standing in for the thread-local generator.
- **The generator in src/actions.rs** (the `Roll` trait, `roll(n)`) is a
  function `roll(k, n)`: what the dice's k-th call with count n returns.
  Constant and repeating dice give the same rolls on every call.
- **Imperative code becomes methods.** The source's loops are methods with
  loop invariants, proved against specification functions. These are
  `roll_repeating`, `reroll`, `count`, `parse_numbered_dice`,
  `parse_fudge_dice`, the collection loop of `parse_request` and its loops
  over `add_step`. Sessions whose fields the source owns are classes: the
  generator, `RollSession` and `FullRollSession`.

## Model

| member | source | states |
|---|---|---|
| Errors.FromParseInt | src/io.rs:14 | an integer-parse error becomes a `Parse` error carrying the parse error's text |
| Errors.U8FromStr | src/io.rs:36 | `parse::<u8>()?`: a value of at most 255, or a `Parse` error |
| Errors.U16FromStr | src/io.rs:37 | `parse::<u16>()?`: a value of at most 65535, or a `Parse` error |
| Text.ParseUnsignedMeaning | src/io.rs:36-37 | an unsigned parse succeeds exactly when the text after one optional '+' is a non-empty run of decimal digits whose value fits the type, and then gives that value |
| Text.ParseNatToString | src/io.rs:36-37 | the decimal form of any value that fits parses back to the value |
| Text.SplitJoin | src/io.rs:87-91 | splitting a join of separator-free pieces on the separator gives the pieces back |
| Text.TrimUntouched | src/io.rs:88 | `trim` leaves a text that neither starts nor ends with white space unchanged |
| Dice.MaxOrZero | src/dice.rs:30 | the largest repeating value: a bound of all values that is one of them, 0 for none |
| Dice.GetMaxValue | src/dice.rs:26-35 | the constant, the side count, or the largest repeating value (0 when there are none); not defined for `AggregationResult` |
| Dice.Cycle | src/dice.rs:84-90 | n values; Dice.RollRepeating and Dice.RepeatAt show that they are the repeating values cycled from the first |
| Dice.RollConstDice | src/dice.rs:92-94 | n copies of the value; n = 255 overflows the range end and is excluded |
| Dice.RollRepeating | src/dice.rs:84-90 | the loop keeps the buffer at k + 1 copies, so the final slice is in bounds; the result is the values cycled and cut to n |
| Dice.RepeatAt | src/dice.rs:85-89 | position i of the repeated buffer holds value i mod the number of values |
| Dice.FudgeOfDraw | src/dice.rs:101-110 | draw 1 is blank, 2 is plus, anything else minus |
| Dice.Dice.GenRange | src/dice.rs:97 | `gen_range(low, high)` gives a value in [low, high) and needs low < high |
| Dice.Dice.RollNumberedDice | src/dice.rs:96-99 | n rolls, each between 1 and the side count |
| Dice.Dice.RollFudgeDice | src/dice.rs:101-110 | n rolls, each the fudge value of a draw in [1, 4) |
| Dice.Dice.RollNumeric | src/dice.rs:54-65 | each numeric dice goes to its helper: n values that are the constant, each in [1, sides], or the cycle; `AggregationResult` cannot be rolled |
| Dice.Dice.RollFudge | src/dice.rs:67-75 | each fudge dice goes to its helper: n draws, n constants or the cycle |
| Dice.RepeatingExamples | src/dice.rs:208-229 | the repeating-dice test: 0, 3, 5 and 15 rolls of [1, 2, 3, 4, 5] |
| Dice.ConstExamples | src/dice.rs:172-190 | the constant-dice test: five 42s and two blanks |
| DiceRolls.NewNumericRolls | src/dice.rs:136-146 | the rolls keep the request, take its display as description, and hold exactly `number` values the dice can give |
| DiceRolls.NewFudgeRolls | src/dice.rs:148-158 | the same for fudge requests |
| Write.FudgeRollToString | src/io/write.rs:5-17 | one symbol per fudge value |
| Write.FudgeRollToStringInjective | src/io/write.rs:5-17 | distinct fudge values display differently |
| Write.NumericRollToString | src/io/write.rs:23 | the canonical decimal form of the value |
| Write.CommaTerminatedIsJoin | src/io/write.rs:27-33 | the repeating values' text is the values joined by commas, plus one trailing comma |
| Write.NumericDiceToString | src/io/write.rs:19-38 | never empty; a numbered dice's text starts with 'D' and a repeating one's with '['; Write.RepeatingNumericReadBack and Write.WriteExamples state the rest |
| Write.FudgeDiceToString | src/io/write.rs:40-58 | never empty; exactly the fudge dice shows as "F"; a repeating one starts with '[' |
| Write.RollRequestToString | src/io/write.rs:60-64 | starts with a digit of the count; Write.NumericRequestOneLine and Write.FudgeRequestOneLine state it is one line |
| Write.RollsLine | src/io/write.rs:66-79 | starts with the description and two more characters; Write.RollsLineReadBack states that the rest reads back as the rolls |
| Write.RepeatingNumericReadBack | src/io/write.rs:27-33 | a repeating dice's text is "[", then comma-separated pieces that read back as the values in order, then "...]" |
| Write.RollsLineReadBack | src/io/write.rs:66-79 | a rolls line is the description and ": ", then space-separated pieces that read back as the values; with no rolls it ends after ": " |
| Write.NumericRequestOneLine | src/io/write.rs:60-64 | a rendered numeric request never contains a line break |
| Write.FudgeRequestOneLine | src/io/write.rs:60-64 | a rendered fudge request never contains a line break |
| Write.RollsLineOneLine | src/io/write.rs:66-79 | a rolls line is one line when its description is |
| Write.WriteExamples | src/io/write.rs:88-136 | the renderings the tests expect: "0", "-", "+", "D20", "F", "[1,2,3,...]", "5F", "1D6" |
| Dice2.GetMaxValue | src/dice2.rs:18-26 | the constant, the side count, or the largest repeating value (0 when there are none) |
| Dice2.RollRepeating | src/dice2.rs:57-63 | the `u16` variant of the repeating loop: the values cycled and cut to n |
| Dice2.RollConstDice | src/dice2.rs:65-67 | n copies of the value; n = 65535 overflows the range end and is excluded |
| Dice2.Dice.GenRange | src/dice2.rs:71 | `gen_range(low, high)` gives a value in [low, high) |
| Dice2.Dice.RollNumberedDice | src/dice2.rs:69-72 | n rolls, each between 1 and the side count |
| Dice2.Dice.RollFudgeDice | src/dice2.rs:82-91 | n rolls, each the fudge value of a draw in [1, 4) |
| Dice2.Dice.RollNumericDice | src/dice2.rs:47-55 | each numeric dice goes to its helper |
| Dice2.Dice.RollFudgeyDice | src/dice2.rs:74-80 | each fudge dice goes to its helper |
| Dice2.AsWritten | src/dice2.rs:11-26 | this revision's dice as the dice that write.rs renders, with the same largest value |
| Dice2.NewNumericResults | src/dice2.rs:112-120 | a result record keeps its request, takes the request's display as description, and starts with no rolls |
| Dice2.NewFudgeResults | src/dice2.rs:122-130 | the same for fudge requests |
| Dice2.NewNumericRecords | src/dice2.rs:138-146 | one fresh result record per request, in order |
| Dice2.NewFudgeRecords | src/dice2.rs:150-158 | the same for fudge requests |
| Dice2.SessionText | src/dice2.rs:166-178 | a session's text is empty exactly when it has no records |
| Dice2.NumericRollSession.GetResults | src/dice2.rs:166-169 | empty exactly when the session has no records; Dice2.NewNumericSessionText gives the text of a new session |
| Dice2.FudgeRollSession.GetResults | src/dice2.rs:175-178 | the same for fudge sessions; Dice2.NewFudgeSessionText gives the text of a new session |
| Dice2.NumericRollSession.constructor | src/dice2.rs:137-147 | a session holds one fresh record per request and a new generator |
| Dice2.FudgeRollSession.constructor | src/dice2.rs:149-159 | the same for fudge requests |
| Dice2.SubResults | src/dice2.rs:196-201 | each subsession's results, in subsession order |
| Dice2.FullRollSession.constructor | src/dice2.rs:189-193 | the full session keeps its subsessions |
| Dice2.FullRollSession.GetResults | src/dice2.rs:195-202 | no subsessions give an empty text, and one subsession gives its own results; Dice2.FullResultsLines splits the text back into each subsession's results |
| Dice2.NewNumericSessionText | src/dice2.rs:166-169 | a new session's results are each request's display and ": ", concatenated with no separator, and never span two lines |
| Dice2.NewFudgeSessionText | src/dice2.rs:175-178 | the same for fudge sessions |
| Dice2.FullResultsLines | src/dice2.rs:195-202 | splitting the full results on line breaks gives back each subsession's results, in order, when each is one line |
| Io.FudgeFromStr | src/io.rs:11-20 | a token ending in 'F' reads as fudge dice, or fails with a parse error of its count |
| Io.ConstFromStr | src/io.rs:22-28 | a token starting with '+' reads as one constant dice, or fails with a parse error of its value |
| Io.NumberedFromParts | src/io.rs:33-48 | the 'D' branch as written gives a numbered dice, or a parse error of one of its pieces |
| Io.DiceRequestFromStr | src/io.rs:10-60 | the reader as written: a success is fudge dice or a numeric dice, and every failure is a `Parse` or `ParseDice` error; Io.DiceRequestShape gives the branch order, Io.DiceRequestRoundTrip the read-back and Io.CountlessNumbered the failure on a missing count |
| Io.DiceRequestFromStrFixed | src/io.rs:10-60 | the corrected reader, with the same kinds of results; Io.FixedExtendsAsWritten and Io.CountlessNumbered state how it differs |
| Io.DiceRequestShape | src/io.rs:10-60 | for every token, both readers: 'F' is tried before '+', which is tried before 'D'; more than two 'D' pieces give the malformed-dice error, and a token with neither gives the unknown-dice error |
| Io.DPartsAtLeastTwo | src/io.rs:30-31 | a token containing 'D' always splits into at least two pieces, so the one-piece branch never runs |
| Io.EmptyCountRejected | src/io.rs:30-41 | as written, "D6" fails with the empty-integer error; the corrected reader reads it as one D6 |
| Io.NumberedFromPartsFixed | src/io.rs:38-41 | with no count piece or an empty one, the count is 1 and the result is the sides' `u16` parse (its error on failure); with a non-empty count piece, the same as the as-written branch |
| Io.FixedExtendsAsWritten | src/io.rs:30-41 | the corrected reader agrees with the as-written one wherever that succeeds, and differs only on an empty count piece |
| Io.CountlessNumbered | src/io.rs:30-41 | for every side count, "D" followed by the sides fails as written with the empty-integer error, and the corrected reader reads it as one dice of those sides |
| Io.DiceRequestRoundTrip | src/io.rs:63-67 | reading the display of a numbered or fudge request gives the request back, with both readers |
| Io.DiceKindToString | src/io.rs:118-135 | never empty; a numeric kind shows a leading 'D' exactly when it is a numbered dice |
| Io.DiceRequestToString | src/io.rs:63-67 | at least two characters, the first a digit of the count; Io.DiceRequestRoundTrip and Io.ConstDisplayNotReadable state which displays read back |
| Io.ConstDisplayNotReadable | src/io.rs:125 | a constant dice displays as "1x<v>", which the reader does not accept |
| Io.ConstTokenMeaning | src/io.rs:22-28 | "+" and the decimal form of v reads as one constant dice of value v |
| Io.DiceRequestExamples | src/io.rs:11-48 | "5D6", "10F" and "F" read as five D6, ten fudge dice and one fudge dice |
| Io.ConstTokenExamples | src/io.rs:22-28 | "+142" reads as 142; "+" and "+8+" fail with the empty and invalid-digit errors |
| Io.TwoDsRejected | src/io.rs:49-52 | "D8D" gives the malformed-dice error |
| Io.LowerCaseRejected | src/io.rs:54-58 | "3d6" gives the unknown-dice error |
| Io.ParseTokens | src/io.rs:87-91 | for any token reader: on success, one request per token, in order; on failure, the error of the first token that fails |
| Io.RollRequestFromStr | src/io.rs:86-94 | the line reader as written, over the token reader as written: one dice request per piece of the trimmed line split on single spaces |
| Io.RollRequestFromStrFixed | src/io.rs:86-94 | the same line reader over the corrected token reader |
| Io.FixedLineExtendsAsWritten | src/io.rs:86-94 | the two line readers agree wherever the one as written succeeds, and on every line none of whose tokens is a numbered dice with an empty count |
| Io.CountlessLine | src/io.rs:86-94 | the line "D6" fails as written with the empty-integer error and reads as one D6 with the corrected token reader |
| Io.NumericRollsReadBack | src/io.rs:103-107 | the space-separated pieces of displayed numeric rolls parse back as the values, in order |
| Io.TextRollsReadBack | src/io.rs:108-112 | the pieces of displayed text rolls are the symbols, in order |
| Io.RollsToString | src/io.rs:97-116 | empty exactly when there are no rolls; Io.NumericRollsReadBack and Io.TextRollsReadBack read the pieces back |
| Io.RollRequestRoundTrip | src/io.rs:83-94 | reading the space-joined display of readable requests gives the requests back, with both line readers |
| Io.DisplayNoWhitespace | src/io.rs:63-67 | a readable request displays as a non-empty text with no white space |
| Io.TokensRead | src/io.rs:87-91 | with any token reader, tokens that each read as a request read together as those requests |
| Actions.ConstRoller | src/actions.rs:86-93 | the constant dice of the examples and tests: every call for n rolls gives n rolls, each showing the value |
| Actions.ConstRollerMeaning | src/dice.rs:92-94 | a call of the constant roller is what `roll_const_dice` gives wherever that does not overflow, and all its n rolls match the value |
| Actions.CountOf | src/actions.rs:200 | the number of rolls equal to the trigger is at most the number of rolls |
| Actions.CountOfMultiset | src/actions.rs:200 | counting the matches is the trigger's multiplicity |
| Actions.CloneRolls | src/actions.rs:59-68 | `clone_rolls` gives the same rolls |
| Actions.Multiply | src/actions.rs:80-84 | every roll times the factor, in place; a product past `u16` is excluded |
| Actions.MultiplySum | src/actions.rs:80-84 | multiplying every roll multiplies their sum by the factor |
| Actions.MultiplyExamples | src/actions.rs:71-76 | the example and the test: [1, 2, 3] times 100, and the test input times 5 |
| Actions.SeqSumAppend | src/actions.rs:244 | the sum of all rolls is the sum of the parts |
| Actions.SumRolls | src/actions.rs:168-172 | `sum` gives one roll holding the sum of the rolls; a sum past `u16` is excluded |
| Actions.SumRollsSplit | src/actions.rs:168-172 | the sum of two batches is the sum of their sums |
| Actions.SumExamples | src/actions.rs:324-333 | [1, 2, 3] sums to 6 and the test input to 118 |
| Actions.Rerolled | src/actions.rs:99-112 | with a dice that keeps its contract, as many rolls come out as went in; Actions.RerollPositional states which roll is at each position |
| Actions.Reroll | src/actions.rs:99-112 | each match is replaced by the rolls of one `roll(1)` call, in order, and the other rolls stay; one call per match |
| Actions.RerollPositional | src/actions.rs:99-112 | with a dice that gives one roll per call, every position keeps its roll, except that the i-th match takes the i-th call's roll |
| Actions.RerollNumericExample | src/actions.rs:335-344 | the test: the ones of [1, 1, 1, 15, 100] become 42 |
| Actions.RerollTextExample | src/actions.rs:346-355 | the test: the minus symbols become blanks |
| Actions.DigitsNumber | src/actions.rs:150-152 | the digit width of the largest value v: the w with 10^(w-1) ≤ v < 10^w |
| Actions.PadLeft | src/actions.rs:140 | `{:0width$}`: zeros in front up to the width, and the text at the end |
| Actions.Reverse | src/actions.rs:141-143 | the characters in reverse order |
| Actions.Flip | src/actions.rs:134-149 | every roll, padded to the dice's digit width, reversed and read back; a result past `u16` is excluded |
| Actions.FlipFlipValue | src/actions.rs:134-149 | flipping twice at the same width gives a roll of at most that width back |
| Actions.FlipFlip | src/actions.rs:134-149 | on rolls the dice can give, flipping with the same dice twice restores them |
| Actions.PadDecimal | src/actions.rs:140-146 | digits padded to full width read back to the same digits |
| Actions.NatToStringOfPad | src/actions.rs:140-146 | the zero-padded decimal form reads back as the value |
| Actions.FlipWiderThanDice | src/actions.rs:134-149 | a roll wider than the dice's largest value is not restored: 100 on a D20 flips to 1, which flips to 10 |
| Actions.FlipD20Example | src/actions.rs:114-122 | a D20 shows two digits, and 1, 15 and 20 flip at that width to 10, 51 and 2 |
| Actions.FlipD20Rolls | src/actions.rs:114-122 | the D20 example: the rolls [1, 15, 20] may be flipped and flip to [10, 51, 2] |
| Actions.FlipD100Example | src/actions.rs:123-130 | the D100 example: a D100 shows three digits, and 1, 15 and 20 flip at that width to 100, 510 and 20 |
| Actions.Exploded | src/actions.rs:193-206 | the rolls come first in the result; no rolls explode to none |
| Actions.ExplodedFuelIrrelevant | src/actions.rs:193-206 | the result does not depend on the bound on batches |
| Actions.ExplodeNoMatch | src/actions.rs:193-206 | rolls with no match do not grow: one call for no rolls ends it |
| Actions.ExplodeOnce | src/actions.rs:193-206 | with a dice that never shows the trigger, the rolls grow once, by one roll per match (count modulo 256) |
| Actions.ConstTriggerNeverStops | src/actions.rs:188-189 | the warning: a constant dice that shows the trigger never stops exploding |
| Actions.ExplodeConstExample | src/actions.rs:175-187 | the example: [1, 2, 3] with a constant 4 and trigger 2 gives [1, 2, 3, 4] |
| Actions.ExplodeRepeatingExample | src/actions.rs:357-367 | the test: [1, 2, 3, 2, 1] with repeating [1, 2] and trigger 2 gives [1, 2, 3, 2, 1, 1, 2, 1] |
| Actions.Subtotals | src/actions.rs:234-243 | each request's sum, in order |
| Actions.TotalRolls | src/actions.rs:214-260 | no rolls give the "No dice to total :(" aggregation; any non-numeric rolls give the incompatible-action error, and only they do; otherwise an aggregation, whose two lines Actions.TotalFirstLine and Actions.TotalDetailLine state |
| Actions.TotalDetail | src/actions.rs:246-252 | the detail is empty exactly when there are no requests |
| Actions.TotalText | src/actions.rs:244-254 | the text of a total always holds a line break |
| Actions.FlattenSum | src/actions.rs:234-244 | the grand total is the sum of the per-request subtotals |
| Actions.TotalFirstLine | src/actions.rs:244-254 | the first line of a total parses as a `u16` to the sum of every roll, and a detail line follows |
| Actions.TotalDetailLine | src/actions.rs:234-254 | the second line of a total is "Detail: " and then, for each request in order, its display, ": " and the sum of its own rolls, joined by ", "; each of those sums fits a `u16`; it is the last line when no display holds a line break |
| Actions.CountMap | src/actions.rs:268-271 | after the loop the map holds exactly the rolls seen, each with one less than its multiplicity |
| Actions.Count | src/actions.rs:266-274 | one counter per distinct roll, each one less than its multiplicity; a count past `u16` is excluded |
| Actions.CountTotal | src/actions.rs:266-274 | the counters add up to the number of rolls less the number of distinct values |
| Actions.ActionToString | src/actions.rs:43-47 | starts with the variant name; Actions.ActionNameRead and Actions.ActionToStringInjective state that the name reads back and that the text is injective |
| Actions.ActionNameRead | src/actions.rs:43-47 | the text of an action before its first parenthesis is its variant name |
| Actions.ActionToStringInjective | src/actions.rs:43-47 | distinct actions display differently |
| Actions.ActionToStringExamples | src/actions.rs:43-47 | the derived forms "Identity", "RerollFudge(Plus)" and "Explode(6)" |
| Read.FudgeRollFromStr | src/io/read.rs:15-28 | "+", "-" and "0" and nothing else read as fudge values; anything else is a parse error quoting the text |
| Read.FudgeRollRoundTrip | src/io/read.rs:15-28 | reading a fudge value's symbol gives the value back |
| Read.FudgeRollReadIsSymbol | src/io/read.rs:15-28 | a text that reads as a fudge value is that value's symbol |
| Read.LastOf | src/io/read.rs:161-173 | the last token's value bounds: a count fits a `u8` and a side count a `u16` |
| Read.LastOfMeaning | src/io/read.rs:161-173 | without a token of the kind the default stands; otherwise the last such token decides |
| Read.ParseNumberedDice | src/io/read.rs:160-178 | count and sides both start at 1 and are overwritten by their tokens |
| Read.ParseFudgeDice | src/io/read.rs:194-205 | the count starts at 1 and is overwritten by each count token |
| Read.ParseConstNumericDice | src/io/read.rs:180-192 | one constant dice whose value is the decimal value of its token |
| Read.NumberedExamples | src/io/read.rs:253-275 | "5d6", "8D3" and "D20" read as five D6, eight D3 and one D20 |
| Read.FudgeExamples | src/io/read.rs:277-288 | "F" and "10F" read as one and ten fudge dice |
| Read.ConstExamples | src/io/read.rs:290-303 | "+5" and "+142" read as one constant 5 and one constant 142 |
| Read.ParseRerollAction | src/io/read.rs:207-220 | a numeric value must parse as a `u16` and a fudge value as a fudge symbol; the parse error is the result |
| Read.ParseExplodeAction | src/io/read.rs:222-235 | a numeric trigger explodes numeric rolls and a fudge trigger fudge rolls |
| Read.ParseMultiplyAction | src/io/read.rs:237-243 | the factor must parse as a `u16`; the parse error is the result |
| Read.ActionOf | src/io/read.rs:78-99 | the sum and total keywords both read as the total, the flip keyword as the flip; each other action comes from its own rule |
| Read.RerollFudgeErrorExample | src/io/read.rs:22-25 | a reroll of "x" fails with "Can't read 'x' as a fudge roll value" |
| Read.NumericDiceOfEmpty | src/io/read.rs:120 | there are no numeric requests exactly when no numeric dice rule was read |
| Read.FudgeDiceOfEmpty | src/io/read.rs:130 | there are no fudge requests exactly when no fudge dice rule was read |
| Read.ActionsOfFirstError | src/io/read.rs:86-94 | the actions read exactly when every action rule reads; otherwise the error is the first failing rule's |
| Read.CollectItems | src/io/read.rs:56-113 | the loop gathers the numeric and the fudge requests in order, the aggregation and the actions, and stops at the first action that fails |
| Read.ApplyStepsAppend | src/io/read.rs:122-124 | applying a run of steps is applying its first part, then the rest |
| Read.RunSteps | src/io/read.rs:122-124 | `add_step` for each action in order; the first failure is the result |
| Read.AssembleSessions | src/io/read.rs:115-155 | the sessions built from what was collected, as the assembly defines them |
| Read.Assembled | src/io/read.rs:115-155 | no dice give no sessions, and a fudge session comes back only without an aggregation; Read.AssembledShape, Read.AssembledFails and Read.AssembledMerge state the rest |
| Read.AssembledShape | src/io/read.rs:115-153 | a numeric session exactly when there are numeric dice, or fudge dice and an aggregation; a fudge session exactly when there are fudge dice and no aggregation, and then it is the session after every step |
| Read.AssembledFails | src/io/read.rs:122-134 | assembly fails exactly when a present session's steps fail; the numeric session's error comes first |
| Read.AssembledMerge | src/io/read.rs:135-146 | with both kinds of dice and an aggregation, the numeric session's rolls come first and the aggregated fudge rolls follow |
| Read.Parsed | src/io/read.rs:52-158 | an action that does not read makes the whole answer its error; Read.NumericSessionIffNumericDice states which sessions come back |
| Read.ParseRequest | src/io/read.rs:52-158 | the reader's answer from the rules the grammar matched |
| Read.NumericSessionIffNumericDice | src/io/read.rs:120-129 | without an aggregation, a numeric session comes back exactly when a numeric dice was read |
| Read.NumericSessionFromStr | src/io/read.rs:30-39 | the numeric session of the request, its error, or "Could not parse numeric roll request" when it has none |
| Read.FudgeSessionFromStr | src/io/read.rs:41-50 | the fudge session of the request, its error, or "Could not parse fudge roll request" when it has none |

## Left out

- Randomness: the thread-local generator behind a `RefCell` is a field whose draws are only known to lie in the asked range.
- Dice.Dice.GenRange: the congruential step in its body is not the library's generator; nothing relies on it.
- The grammar of the request reader and the parser library behind it are not part of this model, and neither is the conversion of their errors. The reader starts from the rules the grammar matched. Dice, action and aggregation groups are flattened into one list of items, in the same order.
- A grammar rule the reader does not expect (`unreachable!()`), and a token whose `unwrap()` would panic, are excluded by preconditions.
- Sessions in src/io/read.rs: `NumericSession`, `FudgeSession`, `add_step` and `aggregate` are not defined in the modelled files. They are operations passed to the reader: `add_step` may fail, and aggregating a fudge session gives a numeric one.
- Dice2: `add_step` is `unimplemented!()` in src/dice2.rs. The `Box<dyn Session>` subsessions are a datatype over the two session classes.
- Dice2: src/dice2.rs shows no `Display` impls. Its requests are rendered with the format of src/io/write.rs.
- Actions.DigitsNumber: the source computes the width as `log10(max as f32) + 1`. The model uses the integer decimal length instead, and a float may disagree with it near powers of ten. A largest value of 0 gives width 0, which is where the float's cast to `usize` saturates.
- Actions.Count: the counters come out in the hash map's iteration order, which is unspecified. The contract pairs them with the distinct rolls, in some order, without fixing that order.
- Actions.Exploded: the source recurses until a batch has no rolls and can recurse forever. The model bounds the number of batches and requires that the explosion ends within the bound.
- The source's `roll(n)` of the dice passed to `explode` and `reroll` is a function of the call number and the count. What a real dice does at `n` = 255 is not modelled.
- `Display for RollRequest` (src/io.rs:69-81) calls `results()`, which is not part of this model.
- The `DiceKind`, `TextDice` and `Action` types of the revisions used by src/io.rs and src/io/read.rs are not defined in the modelled files. They are modelled from their uses.
- Parse errors of the grammar's own (`Error::from(err)`) are not modelled.
- The test of `flip` (src/actions.rs:313-322) compares every element but the last, whose expected value 2 is not what the code computes. The D100 example in the documentation is modelled instead.

## Findings

| source | as written | input that shows it | evidently intended | confidence | as-written member | corrected member |
|---|---|---|---|---|---|---|
| src/io.rs:30-41 | the count piece is parsed as a `u8` before the one-piece check, and splitting a token that contains 'D' never gives one piece, so the default count of 1 is dead | "D6" splits into "" and "6"; parsing "" fails with "cannot parse integer from empty string" | a missing count means one dice: "D6" reads as one D6 | high, not executed | Io.EmptyCountRejected | Io.DiceRequestFromStrFixed |

`Io.DiceRequestFromStr` is the token reader as written, and `Io.DiceRequestFromStrFixed` is the corrected one. `Io.CountlessNumbered` proves, for every side count, that "D" and the sides fails as written and reads as one dice when corrected. `Io.FixedExtendsAsWritten` proves that the two readers agree wherever the original succeeds. The line reader comes in both forms: `Io.RollRequestFromStr` over the reader as written, and `Io.RollRequestFromStrFixed` over the corrected one. `Io.FixedLineExtendsAsWritten` lifts the agreement to whole lines, and `Io.CountlessLine` shows the line "D6" on both.
