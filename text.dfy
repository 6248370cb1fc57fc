/** The pieces of Rust's standard library that the dice reader and writer
    lean on, written out so that their behaviour is part of the model:
    `to_string` of an unsigned integer, `FromStr` for `u8`/`u16`,
    `str::split` on one character, `join`, and `str::trim`. */
module Text {

  const U8_MAX: nat := 255
  const U16_MAX: nat := 65535

  predicate IsDigit(c: char) { '0' <= c <= '9' }

  predicate AllDigits(s: string) { forall i :: 0 <= i < |s| ==> IsDigit(s[i]) }

  function DigitValue(c: char): (d: nat)
    requires IsDigit(c)
    ensures d < 10
  {
    (c as int) - ('0' as int)
  }

  function DigitChar(d: nat): (c: char)
    requires d < 10
    ensures IsDigit(c) && DigitValue(c) == d
  {
    (('0' as int) + d) as char
  }

  function Pow10(k: nat): (p: nat)
    ensures p >= 1
  {
    if k == 0 then 1 else 10 * Pow10(k - 1)
  }

  /** Left-to-right decimal fold: the value `acc` followed by the digits of `s`. */
  function DigitsFold(s: string, acc: nat): nat
    requires AllDigits(s)
    decreases |s|
  {
    if s == [] then acc else DigitsFold(s[1..], 10 * acc + DigitValue(s[0]))
  }

  /** The number an all-digit string denotes (leading zeros allowed). */
  function DecimalValue(s: string): nat
    requires AllDigits(s)
  {
    DigitsFold(s, 0)
  }

  lemma {:induction false} DigitsFoldSnoc(s: string, c: char, acc: nat)
    requires AllDigits(s) && IsDigit(c)
    ensures AllDigits(s + [c])
    ensures DigitsFold(s + [c], acc) == 10 * DigitsFold(s, acc) + DigitValue(c)
    decreases |s|
  {
    if s != [] {
      assert (s + [c])[1..] == s[1..] + [c];
      DigitsFoldSnoc(s[1..], c, 10 * acc + DigitValue(s[0]));
    }
  }

  /** Reading a decimal string digit by digit from the right. */
  lemma DecimalValueSnoc(s: string, c: char)
    requires AllDigits(s) && IsDigit(c)
    ensures AllDigits(s + [c])
    ensures DecimalValue(s + [c]) == 10 * DecimalValue(s) + DigitValue(c)
  {
    DigitsFoldSnoc(s, c, 0);
  }

  lemma {:induction false} DigitsFoldAtLeast(s: string, acc: nat)
    requires AllDigits(s)
    ensures DigitsFold(s, acc) >= acc * Pow10(|s|)
    decreases |s|
  {
    if s != [] {
      var next := 10 * acc + DigitValue(s[0]);
      var p := Pow10(|s| - 1);
      DigitsFoldAtLeast(s[1..], next);
      assert Pow10(|s|) == 10 * p;
      assert next * p >= (10 * acc) * p by { MulLeft(next, 10 * acc, p); }
      assert (10 * acc) * p == acc * (10 * p);
    }
  }

  lemma MulLeft(a: nat, b: nat, p: nat)
    requires a >= b
    ensures a * p >= b * p
  {
  }

  /** An all-digit string of length k denotes a number below 10^k. */
  lemma {:induction false} DecimalValueBound(s: string)
    requires AllDigits(s)
    ensures DecimalValue(s) < Pow10(|s|)
    decreases |s|
  {
    if s != [] {
      var p := s[..|s| - 1];
      assert s == p + [s[|s| - 1]];
      DecimalValueSnoc(p, s[|s| - 1]);
      DecimalValueBound(p);
    }
  }

  /** Leading zeros do not change the value. */
  lemma {:induction false} DecimalValueLeadingZero(s: string)
    requires AllDigits(s)
    ensures AllDigits(['0'] + s) && DecimalValue(['0'] + s) == DecimalValue(s)
  {
    assert (['0'] + s)[1..] == s;
  }

  /** `to_string` of an unsigned integer: its shortest decimal form. */
  function NatToString(n: nat): (s: string)
    ensures 1 <= |s| && AllDigits(s)
    decreases n
  {
    if n < 10 then [DigitChar(n)] else NatToString(n / 10) + [DigitChar(n % 10)]
  }

  /** A canonical decimal numeral: non-empty digits, no leading zero unless it is "0". */
  predicate Canonical(s: string)
  {
    1 <= |s| && AllDigits(s) && (s[0] == '0' ==> |s| == 1)
  }

  lemma {:induction false} NatToStringCanonical(n: nat)
    ensures Canonical(NatToString(n))
    ensures NatToString(n)[0] == '0' <==> n == 0
    decreases n
  {
    if n >= 10 {
      NatToStringCanonical(n / 10);
    }
  }

  /** Reading back what `to_string` wrote gives the number. */
  lemma {:induction false} DecimalValueOfNatToString(n: nat)
    ensures DecimalValue(NatToString(n)) == n
    decreases n
  {
    if n < 10 {
      var s := NatToString(n);
      assert DigitsFold(s, 0) == DigitsFold(s[1..], n);
      assert s[1..] == [];
    } else {
      DecimalValueOfNatToString(n / 10);
      DecimalValueSnoc(NatToString(n / 10), DigitChar(n % 10));
    }
  }

  lemma {:induction false} LeadingNonZeroPositive(s: string)
    requires AllDigits(s) && 1 <= |s| && s[0] != '0'
    ensures DecimalValue(s) >= Pow10(|s| - 1)
  {
    var d := DigitValue(s[0]);
    var p := Pow10(|s| - 1);
    assert d >= 1;
    assert DecimalValue(s) == DigitsFold(s[1..], d);
    DigitsFoldAtLeast(s[1..], d);
    assert d * p >= p;
  }

  /** Writing a canonical numeral's value gives back the numeral. */
  lemma {:induction false} NatToStringOfDecimalValue(s: string)
    requires Canonical(s)
    ensures NatToString(DecimalValue(s)) == s
    decreases |s|
  {
    if |s| == 1 {
      assert DigitsFold(s, 0) == DigitsFold(s[1..], DigitValue(s[0]));
      assert s[1..] == [];
      assert s == [DigitChar(DigitValue(s[0]))];
    } else {
      var p := s[..|s| - 1];
      assert s == p + [s[|s| - 1]];
      DecimalValueSnoc(p, s[|s| - 1]);
      LeadingNonZeroPositive(p);
      NatToStringOfDecimalValue(p);
      var v := DecimalValue(s);
      assert v / 10 == DecimalValue(p) && v % 10 == DigitValue(s[|s| - 1]);
      assert DigitChar(v % 10) == s[|s| - 1];
    }
  }

  lemma NatToStringInjective(m: nat, n: nat)
    requires NatToString(m) == NatToString(n)
    ensures m == n
  {
    DecimalValueOfNatToString(m);
    DecimalValueOfNatToString(n);
  }

  /** `to_string` of a number below 10^k has at most k digits, and conversely. */
  lemma {:induction false} NatToStringLength(n: nat, k: nat)
    ensures |NatToString(n)| <= k <==> (n < Pow10(k) && 1 <= k)
  {
    NatToStringCanonical(n);
    DecimalValueOfNatToString(n);
    DecimalValueBound(NatToString(n));
    var s := NatToString(n);
    if n != 0 {
      LeadingNonZeroPositive(s);
      Pow10Monotone(|s| - 1, k);
      Pow10Monotone(k, |s|);
    } else {
      assert s == "0";
    }
  }

  lemma {:induction false} Pow10Monotone(i: nat, j: nat)
    ensures i <= j <==> Pow10(i) <= Pow10(j)
    decreases i + j
  {
    if i > 0 && j > 0 {
      Pow10Monotone(i - 1, j - 1);
    } else if i > 0 {
      assert Pow10(i) == 10 * Pow10(i - 1);
    } else if j > 0 {
      assert Pow10(j) == 10 * Pow10(j - 1);
    }
  }

  // ---------------------------------------------------------------------
  // FromStr for unsigned integers (u8, u16), as Rust's standard library
  // of the time implemented it: an optional leading '+', then decimal
  // digits, checked for overflow digit by digit from the left.

  datatype IntErrorKind = Empty | InvalidDigit | Overflow

  /** The text `ParseIntError::to_string` gives for each kind. */
  function IntErrorMessage(k: IntErrorKind): string
  {
    match k
    case Empty => "cannot parse integer from empty string"
    case InvalidDigit => "invalid digit found in string"
    case Overflow => "number too large to fit in target type"
  }

  datatype ParsedInt = IntOk(value: nat) | IntErr(kind: IntErrorKind)

  function ScanDigits(s: string, acc: nat, max: nat): (r: ParsedInt)
    requires acc <= max
    ensures r.IntOk? ==> r.value <= max
    decreases |s|
  {
    if s == [] then IntOk(acc)
    else if !IsDigit(s[0]) then IntErr(InvalidDigit)
    else if 10 * acc + DigitValue(s[0]) > max then IntErr(Overflow)
    else ScanDigits(s[1..], 10 * acc + DigitValue(s[0]), max)
  }

  /** The digits an unsigned parse reads: the text after one optional '+'. */
  function UnsignedDigits(s: string): string
  {
    if |s| >= 1 && s[0] == '+' then s[1..] else s
  }

  function ParseUnsigned(s: string, max: nat): (r: ParsedInt)
    ensures r.IntOk? ==> r.value <= max
  {
    var digits := UnsignedDigits(s);
    if digits == [] then IntErr(Empty) else ScanDigits(digits, 0, max)
  }

  function ParseU8(s: string): ParsedInt { ParseUnsigned(s, U8_MAX) }

  function ParseU16(s: string): ParsedInt { ParseUnsigned(s, U16_MAX) }

  lemma {:induction false} DigitsFoldMonotone(s: string, acc: nat)
    requires AllDigits(s) && s != []
    ensures DigitsFold(s, acc) >= 10 * acc + DigitValue(s[0])
  {
    DigitsFoldAtLeast(s[1..], 10 * acc + DigitValue(s[0]));
  }

  lemma {:induction false} ScanDigitsMeaning(s: string, acc: nat, max: nat)
    requires acc <= max
    ensures ScanDigits(s, acc, max).IntOk? <==> AllDigits(s) && DigitsFold(s, acc) <= max
    ensures ScanDigits(s, acc, max).IntOk? ==> ScanDigits(s, acc, max).value == DigitsFold(s, acc)
    decreases |s|
  {
    if s != [] {
      if !IsDigit(s[0]) {
        assert !AllDigits(s);
      } else {
        var next := 10 * acc + DigitValue(s[0]);
        assert AllDigits(s) <==> AllDigits(s[1..]) by {
          if AllDigits(s[1..]) {
            forall i | 0 <= i < |s| ensures IsDigit(s[i]) {
              if i > 0 { assert s[i] == s[1..][i - 1]; }
            }
          }
        }
        if next > max {
          if AllDigits(s) { DigitsFoldMonotone(s, acc); }
        } else {
          ScanDigitsMeaning(s[1..], next, max);
        }
      }
    }
  }

  /** Rust's unsigned parse succeeds exactly on an optional '+' followed by a
      non-empty run of digits whose value fits, and then yields that value. */
  lemma ParseUnsignedMeaning(s: string, max: nat)
    ensures ParseUnsigned(s, max).IntOk? <==>
      (UnsignedDigits(s) != [] && AllDigits(UnsignedDigits(s)) && DecimalValue(UnsignedDigits(s)) <= max)
    ensures ParseUnsigned(s, max).IntOk? ==> ParseUnsigned(s, max).value == DecimalValue(UnsignedDigits(s))
  {
    ScanDigitsMeaning(UnsignedDigits(s), 0, max);
  }

  /** Parsing what `to_string` wrote gives back the number. */
  lemma ParseNatToString(n: nat, max: nat)
    requires n <= max
    ensures ParseUnsigned(NatToString(n), max) == IntOk(n)
  {
    DecimalValueOfNatToString(n);
    NatToStringCanonical(n);
    assert UnsignedDigits(NatToString(n)) == NatToString(n);
    ParseUnsignedMeaning(NatToString(n), max);
  }

  /** The same with the optional '+' in front. */
  lemma ParsePlusNatToString(n: nat, max: nat)
    requires n <= max
    ensures ParseUnsigned("+" + NatToString(n), max) == IntOk(n)
  {
    ParseNatToString(n, max);
    NatToStringCanonical(n);
    assert UnsignedDigits("+" + NatToString(n)) == NatToString(n) == UnsignedDigits(NatToString(n));
  }

  /** A string with a character that is neither a digit nor a leading '+' never parses. */
  lemma ParseRejectsNonDigit(s: string, max: nat, i: nat)
    requires i < |s| && !IsDigit(s[i]) && (i == 0 ==> s[0] != '+')
    ensures ParseUnsigned(s, max).IntErr?
  {
    ParseUnsignedMeaning(s, max);
    var d := UnsignedDigits(s);
    var j := if s[0] == '+' then i - 1 else i;
    assert 0 <= j < |d| && d[j] == s[i];
  }

  // ---------------------------------------------------------------------
  // str::split on one character, and join.

  /** A join of non-empty pieces starts with the first piece's first
      character and ends with the last piece's last one. */
  lemma {:induction false} JoinEnds(parts: seq<string>, sep: string)
    requires |parts| >= 1
    requires forall k :: 0 <= k < |parts| ==> parts[k] != []
    ensures var j := Join(parts, sep);
      |j| >= 1 && j[0] == parts[0][0] && j[|j| - 1] == parts[|parts| - 1][|parts[|parts| - 1]| - 1]
    decreases |parts|
  {
    if |parts| > 1 {
      JoinEnds(parts[1..], sep);
    }
  }

  /** The pieces `s.split(sep)` yields: the text between separators, empty
      pieces included, so there is always one more piece than separators. */
  function Split(s: string, sep: char): (parts: seq<string>)
    ensures |parts| >= 1
    decreases |s|
  {
    if s == [] then [[]]
    else
      var rest := Split(s[1..], sep);
      if s[0] == sep then [[]] + rest else [[s[0]] + rest[0]] + rest[1..]
  }

  /** `parts.join(sep)`. */
  function Join(parts: seq<string>, sep: string): string
  {
    if parts == [] then []
    else if |parts| == 1 then parts[0]
    else parts[0] + sep + Join(parts[1..], sep)
  }

  /** A character in neither the pieces nor the separator is not in their join. */
  lemma {:induction false} JoinAvoids(parts: seq<string>, sep: string, c: char)
    requires c !in sep
    requires forall k :: 0 <= k < |parts| ==> c !in parts[k]
    ensures c !in Join(parts, sep)
    decreases |parts|
  {
    if |parts| > 1 {
      JoinAvoids(parts[1..], sep, c);
    }
  }

  lemma {:induction false} SplitPiecesAvoidSeparator(s: string, sep: char)
    ensures forall k :: 0 <= k < |Split(s, sep)| ==> sep !in Split(s, sep)[k]
    decreases |s|
  {
    if s != [] {
      SplitPiecesAvoidSeparator(s[1..], sep);
    }
  }

  /** Joining the pieces back with the separator restores the string. */
  lemma {:induction false} JoinSplit(s: string, sep: char)
    ensures Join(Split(s, sep), [sep]) == s
    decreases |s|
  {
    if s != [] {
      var rest := Split(s[1..], sep);
      JoinSplit(s[1..], sep);
      if s[0] == sep {
        assert Split(s, sep) == [[]] + rest;
      } else {
        var parts := Split(s, sep);
        assert parts == [[s[0]] + rest[0]] + rest[1..];
        if |rest| == 1 {
          assert Join(parts, [sep]) == [s[0]] + rest[0];
        } else {
          assert parts[1..] == rest[1..];
          assert Join(rest, [sep]) == rest[0] + [sep] + Join(rest[1..], [sep]);
        }
      }
    }
  }

  /** Splitting a join of separator-free pieces gives the pieces back. */
  lemma {:induction false} SplitJoin(parts: seq<string>, sep: char)
    requires |parts| >= 1
    requires forall k :: 0 <= k < |parts| ==> sep !in parts[k]
    ensures Split(Join(parts, [sep]), sep) == parts
    decreases |parts|
  {
    if |parts| == 1 {
      SplitNoSeparator(parts[0], sep);
    } else {
      SplitJoin(parts[1..], sep);
      assert Join(parts, [sep]) == parts[0] + [sep] + Join(parts[1..], [sep]);
      SplitCons(parts[0], sep, Join(parts[1..], [sep]));
      assert parts == [parts[0]] + parts[1..];
    }
  }

  /** The text before the first separator is the first piece, and the
      text after it splits on its own. */
  lemma {:induction false} SplitCons(a: string, sep: char, b: string)
    requires sep !in a
    ensures Split(a + [sep] + b, sep) == [a] + Split(b, sep)
    decreases |a|
  {
    if a == [] {
      assert a + [sep] + b == [sep] + b;
      assert ([sep] + b)[1..] == b;
    } else {
      SplitCons(a[1..], sep, b);
      assert (a + [sep] + b)[1..] == a[1..] + [sep] + b;
      assert a == [a[0]] + a[1..];
    }
  }

  /** Two pieces around one separator. */
  lemma SplitAround(a: string, sep: char, b: string)
    requires sep !in a && sep !in b
    ensures Split(a + [sep] + b, sep) == [a, b]
  {
    assert Join([a, b], [sep]) == a + [sep] + b;
    SplitJoin([a, b], sep);
  }

  /** The first piece is the text before the first separator, whatever
      follows it. */
  lemma {:induction false} SplitFirst(a: string, sep: char, b: string)
    requires sep !in a
    ensures |Split(a + [sep] + b, sep)| >= 2 && Split(a + [sep] + b, sep)[0] == a
    decreases |a|
  {
    if a != [] {
      SplitFirst(a[1..], sep, b);
      assert (a + [sep] + b)[1..] == a[1..] + [sep] + b;
    }
  }

  /** A string free of the separator is one piece. */
  lemma {:induction false} SplitNoSeparator(a: string, sep: char)
    requires sep !in a
    ensures Split(a, sep) == [a]
    decreases |a|
  {
    if a != [] {
      SplitNoSeparator(a[1..], sep);
      assert a == [a[0]] + a[1..];
    }
  }

  // ---------------------------------------------------------------------
  // str::trim

  /** Unicode White_Space, the set `str::trim` removes from both ends. */
  predicate IsWhitespace(c: char)
  {
    ('\U{9}' <= c <= '\U{D}') || c == ' ' || c == '\U{85}' || c == '\U{A0}'
    || c == '\U{1680}' || ('\U{2000}' <= c <= '\U{200A}') || c == '\U{2028}'
    || c == '\U{2029}' || c == '\U{202F}' || c == '\U{205F}' || c == '\U{3000}'
  }

  function TrimStart(s: string): (t: string)
    ensures |t| <= |s| && t == s[|s| - |t|..]
    ensures t != [] ==> !IsWhitespace(t[0])
    ensures forall i :: 0 <= i < |s| - |t| ==> IsWhitespace(s[i])
    decreases |s|
  {
    if s != [] && IsWhitespace(s[0]) then TrimStart(s[1..]) else s
  }

  function TrimEnd(s: string): (t: string)
    ensures |t| <= |s| && t == s[..|t|]
    ensures t != [] ==> !IsWhitespace(t[|t| - 1])
    ensures forall i :: |t| <= i < |s| ==> IsWhitespace(s[i])
    decreases |s|
  {
    if s != [] && IsWhitespace(s[|s| - 1]) then TrimEnd(s[..|s| - 1]) else s
  }

  /** `str::trim`: the string without leading and trailing white space. */
  function Trim(s: string): string
  {
    TrimEnd(TrimStart(s))
  }

  lemma TrimNoWhitespace(s: string)
    requires forall i :: 0 <= i < |s| ==> !IsWhitespace(s[i])
    ensures Trim(s) == s
  {
  }

  /** A string that starts and ends with something other than white space
      is its own trim, whatever it holds inside. */
  lemma TrimUntouched(s: string)
    requires s != [] ==> !IsWhitespace(s[0]) && !IsWhitespace(s[|s| - 1])
    ensures Trim(s) == s
  {
  }

  /** Trimming removes only white space: the same non-space characters remain. */
  lemma TrimKeepsNonWhitespace(s: string, c: char)
    requires !IsWhitespace(c)
    ensures c in s <==> c in Trim(s)
  {
    var lo, hi := TrimSlice(s);
    forall i | 0 <= i < lo ensures s[i] != c {
      assert IsWhitespace(s[i]);
    }
    forall i | hi <= i < |s| ensures s[i] != c {
      assert IsWhitespace(s[i]);
    }
    SliceKeeps(s, lo, hi, c);
  }

  /** The trim is a slice with only white space around it. */
  lemma TrimSlice(s: string) returns (lo: nat, hi: nat)
    ensures lo <= hi <= |s| && Trim(s) == s[lo..hi]
    ensures forall i :: 0 <= i < lo ==> IsWhitespace(s[i])
    ensures forall i :: hi <= i < |s| ==> IsWhitespace(s[i])
  {
    var a := TrimStart(s);
    var b := TrimEnd(a);
    lo, hi := |s| - |a|, |s| - |a| + |b|;
    WhitespaceAfter(s, lo, a, b);
  }

  lemma WhitespaceAfter(s: string, lo: nat, a: string, b: string)
    requires lo <= |s| && a == s[lo..]
    requires |b| <= |a| && b == a[..|b|]
    requires forall i :: |b| <= i < |a| ==> IsWhitespace(a[i])
    ensures forall i :: lo + |b| <= i < |s| ==> IsWhitespace(s[i])
  {
    forall i | lo + |b| <= i < |s| ensures IsWhitespace(s[i]) {
      assert s[i] == a[i - lo];
    }
  }

  /** A character found nowhere outside a slice is in the slice exactly
      when it is in the whole. */
  lemma SliceKeeps(s: string, lo: nat, hi: nat, c: char)
    requires lo <= hi <= |s|
    requires forall i :: 0 <= i < lo ==> s[i] != c
    requires forall i :: hi <= i < |s| ==> s[i] != c
    ensures c in s <==> c in s[lo..hi]
  {
    if c in s {
      var i :| 0 <= i < |s| && s[i] == c;
      assert s[lo..hi][i - lo] == c;
    }
  }

}
