/** The bounded integer readers of base/convert.h. */
module Convert {
  import opened Common

  /** numeric_limits of an integer type. */
  datatype Bounds = Bounds(min: int, max: int)

  /** What the readers assert of the type; every integer type meets it. */
  predicate IsType(b: Bounds) {
    b.min <= 0 && b.max >= 16
  }

  predicate Fits(b: Bounds, x: int) {
    b.min <= x <= b.max
  }

  /** PastEnd: the head of the stream was read although there was none, which the source only asserts against. */
  datatype Error = Overflow | Underflow | NoDigits | PastEnd

  // ----- arithmetic that stays inside the type -----------------------------------------

  function Mul(b: Bounds, x: int, y: int): int
    requires Fits(b, x) && Fits(b, x * y)
  {
    x * y
  }

  function Add(b: Bounds, x: int, y: int): int
    requires Fits(b, x) && Fits(b, x + y)
  {
    x + y
  }

  function Sub(b: Bounds, x: int, y: int): int
    requires Fits(b, x) && Fits(b, x - y)
  {
    x - y
  }

  /** C++ division rounds toward zero. */
  function Div(x: int, y: int): int
    requires y > 0
  {
    if x >= 0 then x / y else -((-x) / y)
  }

  predicate IsBase(base: int) {
    base == 8 || base == 10 || base == 16
  }

  // ----- digits ------------------------------------------------------------------------

  /** The value of a digit, or -1: digit_of. */
  function DigitOf(base: int, c: char): (d: int)
    requires IsBase(base)
    ensures -1 <= d < base
  {
    if '0' <= c <= '7' || (base != 8 && '8' <= c <= '9') then c as int - '0' as int
    else if base == 16 && 'a' <= c <= 'f' then c as int - 'a' as int + 10
    else if base == 16 && 'A' <= c <= 'F' then c as int - 'A' as int + 10
    else -1
  }

  /** How many digits s starts with. */
  function RunLength(base: int, s: string): (n: nat)
    requires IsBase(base)
    ensures n <= |s|
  {
    if s == "" || DigitOf(base, s[0]) < 0 then 0 else 1 + RunLength(base, s[1..])
  }

  ghost predicate AllDigits(base: int, s: string)
    requires IsBase(base)
  {
    forall i | 0 <= i < |s| :: DigitOf(base, s[i]) >= 0
  }

  /** The number the digits of s spell in the base. */
  ghost function Value(base: int, s: string): (v: nat)
    requires IsBase(base) && AllDigits(base, s)
  {
    if s == "" then 0 else Value(base, s[..|s| - 1]) * base + DigitOf(base, s[|s| - 1])
  }

  ghost function Signed(positive: bool, v: int): int {
    if positive then v else -v
  }

  lemma {:induction false} RunIsDigits(base: int, s: string)
    requires IsBase(base)
    ensures AllDigits(base, s[..RunLength(base, s)])
    ensures RunLength(base, s) < |s| ==> DigitOf(base, s[RunLength(base, s)]) < 0
  {
    if s != "" && DigitOf(base, s[0]) >= 0 {
      RunIsDigits(base, s[1..]);
      var n := RunLength(base, s);
      assert s[..n] == [s[0]] + s[1..][..n - 1];
    }
  }

  // ----- one digit ---------------------------------------------------------------------

  /** The checks of both readers, exactly: the next value fits the type or it does not. */
  lemma CheckIsExact(b: Bounds, base: int, cur: int, digit: int)
    requires IsType(b) && IsBase(base) && Fits(b, cur) && 0 <= digit < base
    ensures cur >= 0 ==> (cur > Div(b.max, base) || digit > b.max - cur * base <==> cur * base + digit > b.max)
    ensures cur <= 0 ==> (cur < Div(b.min, base) || cur * base < b.min + digit <==> cur * base - digit < b.min)
    ensures 0 <= cur <= Div(b.max, base) ==> Fits(b, cur * base) && Fits(b, b.max - cur * base)
    ensures Div(b.min, base) <= cur <= 0 ==> Fits(b, cur * base)
    ensures Fits(b, b.min + digit)
  {
    if base == 8 {
    } else if base == 10 {
    } else {
    }
  }

  /** The bounds check and the step of the loops; None if the digit does not fit. */
  method Accumulate(b: Bounds, positive: bool, base: int, cur: int, digit: int) returns (next: Option<int>)
    requires IsType(b) && IsBase(base) && Fits(b, cur) && 0 <= digit < base
    requires if positive then cur >= 0 else cur <= 0
    ensures var exact := if positive then cur * base + digit else cur * base - digit;
            next == if Fits(b, exact) then Some(exact) else None
  {
    CheckIsExact(b, base, cur, digit);
    if positive {
      if cur > Div(b.max, base) || digit > Sub(b, b.max, Mul(b, cur, base)) {
        return None;
      }
    } else {
      if cur < Div(b.min, base) || Mul(b, cur, base) < Add(b, b.min, digit) {
        return None;
      }
    }
    var scaled := Mul(b, cur, base);
    next := Some(if positive then Add(b, scaled, digit) else Sub(b, scaled, digit));
  }

  // ----- a run of digits ---------------------------------------------------------------

  ghost predicate InType(b: Bounds, positive: bool, v: nat) {
    Fits(b, Signed(positive, v))
  }

  /** The exact outcome for the digits in run: the value if it fits, the error if it does not. */
  ghost function Outcome(b: Bounds, positive: bool, base: int, run: string): Result<Option<int>, Error>
    requires IsBase(base) && AllDigits(base, run)
  {
    var v := Value(base, run);
    if InType(b, positive, v) then Ok(Some(Signed(positive, v))) else Err(if positive then Overflow else Underflow)
  }

  lemma ValuePush(base: int, s: string, i: nat)
    requires IsBase(base) && i < |s| && AllDigits(base, s[..i]) && DigitOf(base, s[i]) >= 0
    ensures AllDigits(base, s[..i + 1])
    ensures Value(base, s[..i + 1]) == Value(base, s[..i]) * base + DigitOf(base, s[i])
  {
    assert s[..i + 1][..i] == s[..i];
  }

  /** A value that does not fit does not come back into range with more digits. */
  lemma StaysOut(b: Bounds, positive: bool, base: int, v: nat, digit: nat)
    requires IsType(b) && IsBase(base) && !InType(b, positive, v)
    ensures !InType(b, positive, v * base + digit)
  {
    assert v * base >= v;
  }

  lemma SignedStep(positive: bool, base: int, v: nat, digit: int)
    requires IsBase(base)
    ensures Signed(positive, v * base + digit)
         == if positive then Signed(positive, v) * base + digit else Signed(positive, v) * base - digit
  {
    var x: int := v;
    assert (-x) * base == -(x * base);
  }

  lemma {:induction false} RunLengthAt(base: int, s: string, i: nat)
    requires IsBase(base) && i <= |s| && AllDigits(base, s[..i]) && (i < |s| ==> DigitOf(base, s[i]) < 0)
    ensures RunLength(base, s) == i
    decreases i
  {
    if i > 0 {
      assert s[..i][0] == s[0];
      var u := s[1..][..i - 1];
      forall k | 0 <= k < |u| ensures DigitOf(base, u[k]) >= 0 {
        assert u[k] == s[..i][k + 1];
      }
      RunLengthAt(base, s[1..], i - 1);
    }
  }

  predicate IsSpace(c: char) {
    c == ' ' || '\t' <= c <= '\r'
  }

  function Stripped(s: string): (t: string)
    ensures |t| <= |s| && (t != "" ==> !IsSpace(t[0]))
  {
    if s != "" && IsSpace(s[0]) then Stripped(s[1..]) else s
  }

  /** The base a radix prefix with a digit behind it announces. */
  function PrefixBase(s: string): (base: Option<int>)
    ensures base.Some? ==> IsBase(base.value) && |s| >= 3 && DigitOf(base.value, s[2]) >= 0
  {
    if |s| < 3 || s[0] != '0' then None
    else if (s[1] == 'x' || s[1] == 'X') && DigitOf(16, s[2]) >= 0 then Some(16)
    else if (s[1] == 'o' || s[1] == 'O') && DigitOf(8, s[2]) >= 0 then Some(8)
    else None
  }

  /** What a reader returns (no value, a value or an error) and what it leaves in the stream. */
  type Reading = (Result<Option<int>, Error>, string)

  ghost function Decimal(b: Bounds, positive: bool, s: string): Reading {
    var t := Stripped(s);
    if t == "" then (Err(PastEnd), "")
    else
      var n := RunLength(10, t);
      RunIsDigits(10, t);
      (if n == 0 then Ok(None) else Outcome(b, positive, 10, t[..n]), t[n..])
  }

  ghost function Prefixed(b: Bounds, positive: bool, s: string): Reading {
    var t := Stripped(s);
    match PrefixBase(t)
    case None => (Ok(None), s)
    case Some(base) =>
      var n := RunLength(base, t[2..]);
      RunIsDigits(base, t[2..]);
      (Outcome(b, positive, base, t[2..][..n]), t[2..][n..])
  }

  /** A prefixed number if there is one, else a decimal. */
  ghost function Unsigned(b: Bounds, positive: bool, s: string): Reading {
    if PrefixBase(Stripped(s)).Some? then Prefixed(b, positive, s) else Decimal(b, positive, s)
  }

  predicate HasSign(s: string) {
    s != "" && (s[0] == '+' || s[0] == '-')
  }

  ghost function Int(b: Bounds, signRequired: bool, s: string): Reading {
    if HasSign(s) then
      var (r, left) := Unsigned(b, s[0] == '+', s[1..]);
      (if r == Ok(None) then Err(NoDigits) else r, left)
    else if signRequired then (Ok(None), s)
    else Unsigned(b, true, s)
  }

  // ----- what the documentation promises ------------------------------------------------

  /** The text behind the optional sign. */
  function AfterSign(s: string): string {
    if HasSign(s) then s[1..] else s
  }

  /** The text has no sign although one is asked for; then nothing is looked at. */
  predicate LacksSign(signRequired: bool, s: string) {
    signRequired && !HasSign(s)
  }

  /** A digit is there to be read, behind white space. */
  predicate DigitFollows(s: string) {
    Stripped(s) != "" && DigitOf(10, Stripped(s)[0]) >= 0
  }

  lemma UnsignedFacts(b: Bounds, positive: bool, s: string)
    ensures Unsigned(b, positive, s).0 == Err(PastEnd) <==> Stripped(s) == ""
    ensures Unsigned(b, positive, s).0 == Ok(None) <==> Stripped(s) != "" && !DigitFollows(s)
    ensures Unsigned(b, positive, s).0 == Ok(None) ==> Unsigned(b, positive, s).1 == Stripped(s)
    ensures Unsigned(b, positive, s).0 != Err(NoDigits)
  {
  }

  lemma {:induction false} StrippedIsSame(s: string)
    ensures Stripped(s) == s <==> s == "" || !IsSpace(s[0])
  {
  }

  /** The reader runs past the end of its input exactly when it looks for digits and finds only white space. */
  lemma PastEndIff(b: Bounds, signRequired: bool, s: string)
    ensures Int(b, signRequired, s).0 == Err(PastEnd) <==> !LacksSign(signRequired, s) && Stripped(AfterSign(s)) == ""
  {
    UnsignedFacts(b, !HasSign(s) || s[0] == '+', AfterSign(s));
  }

  /** A sign that no digit follows is reported exactly when something else than white space follows it. */
  lemma NoDigitsIff(b: Bounds, signRequired: bool, s: string)
    requires HasSign(s) && !DigitFollows(s[1..])
    ensures Int(b, signRequired, s).0 == Err(NoDigits) <==> Stripped(s[1..]) != ""
  {
    UnsignedFacts(b, s[0] == '+', s[1..]);
  }

  /** The reader answers that there is no integer exactly without a sign and without a digit, and it has left the input
      alone then exactly if it never looked for digits or had no white space to skip. */
  lemma UnchangedIff(b: Bounds, signRequired: bool, s: string)
    ensures var (r, left) := Int(b, signRequired, s);
            && (r == Ok(None) <==> LacksSign(signRequired, s) || (!HasSign(s) && Stripped(s) != "" && !DigitFollows(s)))
            && (r == Ok(None) ==> (left == s <==> LacksSign(signRequired, s) || !IsSpace(s[0])))
  {
    UnsignedFacts(b, !HasSign(s) || s[0] == '+', AfterSign(s));
    StrippedIsSame(s);
  }

  /** A sign at the end of the input is not reported. */
  lemma SignAtTheEnd(b: Bounds, signRequired: bool)
    ensures Int(b, signRequired, "+").0 == Err(PastEnd)
  {
    PastEndIff(b, signRequired, "+");
  }

  /** No integer is found, and the space is gone. */
  lemma SpaceIsLost(b: Bounds)
    ensures Int(b, false, " x") == (Ok(None), "x")
  {
    assert Stripped(" x") == "x";
  }

  // ----- reading back -------------------------------------------------------------------

  const LOWER: string := "0123456789abcdef"
  const UPPER: string := "0123456789ABCDEF"

  /** How a number is written: its base, the prefix that announces the base, and the digits. */
  datatype Notation = Notation(base: int, prefix: string, digits: string)

  predicate IsNotation(n: Notation) {
    && (n.digits == LOWER || n.digits == UPPER)
    && match n.base
       case 10 => n.prefix == ""
       case 16 => n.prefix == "0x" || n.prefix == "0X"
       case 8 => n.prefix == "0o" || n.prefix == "0O"
       case _ => false
  }

  predicate IsDigitIn(base: int, c: char)
    requires IsBase(base)
  {
    c in LOWER[..base] || c in UPPER[..base]
  }

  lemma LowerDigit(d: int)
    requires 0 <= d < 16
    ensures DigitOf(16, LOWER[d]) == d
    ensures d < 10 ==> DigitOf(10, LOWER[d]) == d
    ensures d < 8 ==> DigitOf(8, LOWER[d]) == d
  {
  }

  lemma UpperDigit(d: int)
    requires 0 <= d < 16
    ensures DigitOf(16, UPPER[d]) == d
    ensures d < 10 ==> DigitOf(10, UPPER[d]) == d
    ensures d < 8 ==> DigitOf(8, UPPER[d]) == d
  {
  }

  /** The digits of a base are the first characters of the two strings and nothing else, and each stands for its
      position. */
  lemma DigitIff(base: int, c: char)
    requires IsBase(base)
    ensures DigitOf(base, c) >= 0 <==> IsDigitIn(base, c)
    ensures forall d | 0 <= d < base && (LOWER[d] == c || UPPER[d] == c) :: DigitOf(base, c) == d
  {
    forall d | 0 <= d < base && (LOWER[d] == c || UPPER[d] == c) ensures DigitOf(base, c) == d {
      LowerDigit(d);
      UpperDigit(d);
    }
    var d := DigitOf(base, c);
    if d >= 0 {
      assert c == LOWER[d] || c == UPPER[d];
      assert c == LOWER[..base][d] || c == UPPER[..base][d];
    }
    assert forall i | 0 <= i < base :: LOWER[..base][i] == LOWER[i] && UPPER[..base][i] == UPPER[i];
  }

  /** The number in the base, as any printer writes it. */
  function Spelled(base: int, digits: string, v: nat): (s: string)
    requires IsBase(base) && |digits| == 16
    ensures s != ""
  {
    if v < base then [digits[v]]
    else
      QuotientAndRest(v, base);
      Spelled(base, digits, v / base) + [digits[v % base]]
  }

  lemma QuotientAndRest(v: nat, base: int)
    requires IsBase(base)
    ensures v == v / base * base + v % base && 0 <= v % base < base && (v >= base ==> 0 < v / base < v)
    ensures v < base ==> v % base == v
  {
    if base == 8 {
    } else if base == 10 {
    } else {
    }
  }

  lemma DigitIs(n: Notation, d: int)
    requires IsNotation(n) && 0 <= d < n.base
    ensures DigitOf(n.base, n.digits[d]) == d
  {
    hide DigitOf;
    LowerDigit(d);
    UpperDigit(d);
  }

  lemma SpelledStep(n: Notation, v: nat)
    requires IsNotation(n) && v >= n.base
    ensures Spelled(n.base, n.digits, v) == Spelled(n.base, n.digits, v / n.base) + [n.digits[v % n.base]]
  {
  }

  lemma ValueStep(base: int, s: string, c: char)
    requires IsBase(base) && AllDigits(base, s) && DigitOf(base, c) >= 0
    ensures AllDigits(base, s + [c]) && Value(base, s + [c]) == Value(base, s) * base + DigitOf(base, c)
  {
    assert (s + [c])[..|s|] == s;
  }

  lemma {:induction false} Spells(n: Notation, v: nat)
    requires IsNotation(n)
    ensures var s := Spelled(n.base, n.digits, v);
            && AllDigits(n.base, s) && Value(n.base, s) == v
            && DigitOf(n.base, s[0]) >= 0 && (v > 0 ==> DigitOf(n.base, s[0]) > 0)
  {
    hide DigitOf, Value;
    QuotientAndRest(v, n.base);
    DigitIs(n, v % n.base);
    if v >= n.base {
      hide Spelled;
      SpelledStep(n, v);
      Spells(n, v / n.base);
      ValueStep(n.base, Spelled(n.base, n.digits, v / n.base), n.digits[v % n.base]);
    } else {
      SpellsOne(n, v);
    }
  }

  lemma SpellsOne(n: Notation, v: nat)
    requires IsNotation(n) && v < n.base
    ensures Spelled(n.base, n.digits, v) == [n.digits[v]] && AllDigits(n.base, [n.digits[v]])
    ensures Value(n.base, [n.digits[v]]) == v
  {
    hide DigitOf;
    DigitIs(n, v);
    assert [n.digits[v]] == "" + [n.digits[v]];
    ValueStep(n.base, "", n.digits[v]);
  }

  /** The text of x, with its sign. */
  function Printed(n: Notation, plus: bool, x: int): string
    requires IsNotation(n)
  {
    if x < 0 then "-" + n.prefix + Spelled(n.base, n.digits, -x)
    else (if plus then "+" else "") + n.prefix + Spelled(n.base, n.digits, x)
  }

  /** The text makes a zero in front of it the beginning of a prefix. */
  predicate MakesPrefix(rest: string) {
    |rest| >= 2
    && (((rest[0] == 'x' || rest[0] == 'X') && IsDigitIn(16, rest[1]))
        || ((rest[0] == 'o' || rest[0] == 'O') && IsDigitIn(8, rest[1])))
  }

  /** What may follow a printed number: no digit that would lengthen it, and nothing that makes a lone zero a prefix. */
  predicate MayFollow(n: Notation, v: int, rest: string)
    requires IsNotation(n)
  {
    && (rest != "" ==> !IsDigitIn(n.base, rest[0]))
    && (n.base == 10 && v == 0 ==> !MakesPrefix(rest))
  }

  lemma PrefixIff(rest: string)
    ensures PrefixBase("0" + rest).Some? <==> MakesPrefix(rest)
  {
    var s := "0" + rest;
    if |rest| >= 2 {
      assert s[1] == rest[0] && s[2] == rest[1];
      DigitIff(16, rest[1]);
      DigitIff(8, rest[1]);
    }
  }

  /** The run of digits at a spelled number is the number, exactly if no digit follows. */
  lemma RunBack(n: Notation, v: nat, rest: string)
    requires IsNotation(n)
    ensures var s, k := Spelled(n.base, n.digits, v) + rest, |Spelled(n.base, n.digits, v)|;
            && s[..k] == Spelled(n.base, n.digits, v) && s[k..] == rest
            && (RunLength(n.base, s) == k <==> rest == "" || !IsDigitIn(n.base, rest[0])) && RunLength(n.base, s) >= k
  {
    hide DigitOf, Spelled, Value, RunLength;
    var t := Spelled(n.base, n.digits, v);
    var s, k := t + rest, |t|;
    Spells(n, v);
    assert s[..k] == t && s[k..] == rest;
    if rest != "" {
      DigitIff(n.base, rest[0]);
      assert s[k] == rest[0];
    }
    RunIsDigits(n.base, s);
    assert forall i | 0 <= i < k :: s[i] == t[i];
    if rest == "" || !IsDigitIn(n.base, rest[0]) {
      RunLengthAt(n.base, s, k);
    }
  }

  lemma DigitIsNoSpace(s: string)
    requires s != "" && DigitOf(10, s[0]) >= 0
    ensures Stripped(s) == s && !HasSign(s)
  {
  }

  lemma ZeroIsZero(n: Notation)
    requires IsNotation(n)
    ensures Spelled(n.base, n.digits, 0) == "0"
  {
  }

  /** A decimal number that is not zero has no leading zero. */
  lemma NoPrefix(n: Notation, v: nat, rest: string)
    requires IsNotation(n) && n.base == 10
    ensures PrefixBase(Spelled(10, n.digits, v) + rest).Some? <==> v == 0 && MakesPrefix(rest)
  {
    Spells(n, v);
    var t := Spelled(10, n.digits, v);
    assert (t + rest)[0] == t[0];
    if v == 0 {
      ZeroIsZero(n);
      PrefixIff(rest);
    }
  }

  /** The prefixes announce their bases. */
  lemma PrefixAnnounces(n: Notation, v: nat, rest: string)
    requires IsNotation(n) && n.base != 10
    ensures var t := n.prefix + Spelled(n.base, n.digits, v) + rest;
            && Stripped(t) == t && !HasSign(t) && PrefixBase(t) == Some(n.base)
            && t[2..] == Spelled(n.base, n.digits, v) + rest
  {
    hide Spelled, Value;
    Spells(n, v);
    var d := Spelled(n.base, n.digits, v);
    var t := n.prefix + d + rest;
    assert t[0] == n.prefix[0] && t[1] == n.prefix[1] && t[2] == d[0];
  }

  ghost function Wanted(b: Bounds, x: int, rest: string): Reading {
    (if Fits(b, x) then Ok(Some(x)) else Err(if x < 0 then Underflow else Overflow), rest)
  }

  lemma UnsignedBack(b: Bounds, positive: bool, n: Notation, v: nat, rest: string)
    requires IsNotation(n) && (v == 0 ==> positive && Fits(b, 0))
    ensures var s := n.prefix + Spelled(n.base, n.digits, v) + rest;
            && s != "" && !HasSign(s) && Unsigned(b, positive, s).0 != Ok(None)
            && (Unsigned(b, positive, s) == Wanted(b, Signed(positive, v), rest) <==> MayFollow(n, v, rest))
  {
    hide Spelled, Value, RunLength, DigitOf, PrefixBase, Stripped, HasSign, MakesPrefix, IsDigitIn;
    var d := Spelled(n.base, n.digits, v);
    var s, k := n.prefix + d + rest, |d|;
    Spells(n, v);
    RunBack(n, v, rest);
    if n.base == 10 {
      DecimalBack(b, positive, n, v, rest);
    } else {
      PrefixAnnounces(n, v, rest);
      assert Unsigned(b, positive, s) == Prefixed(b, positive, s);
      var m := RunLength(n.base, d + rest);
      assert |Prefixed(b, positive, s).1| == |d + rest| - m;
    }
  }

  lemma DecimalBack(b: Bounds, positive: bool, n: Notation, v: nat, rest: string)
    requires IsNotation(n) && n.base == 10 && (v == 0 ==> positive && Fits(b, 0))
    ensures var s := n.prefix + Spelled(n.base, n.digits, v) + rest;
            && s != "" && !HasSign(s) && Unsigned(b, positive, s).0 != Ok(None)
            && (Unsigned(b, positive, s) == Wanted(b, Signed(positive, v), rest) <==> MayFollow(n, v, rest))
  {
    hide Spelled, Value, RunLength, DigitOf, PrefixBase, Stripped, HasSign, MakesPrefix, IsDigitIn;
    var d := Spelled(n.base, n.digits, v);
    var s, k := d + rest, |d|;
    assert n.prefix + d + rest == s;
    Spells(n, v);
    RunBack(n, v, rest);
    assert s[0] == d[0];
    DigitIsNoSpace(s);
    NoPrefix(n, v, rest);
    if PrefixBase(s).Some? {
      TakesPrefix(b, positive, s);
      ZeroIsZero(n);
      assert |Unsigned(b, positive, s).1| < |rest|;
    } else {
      assert |Unsigned(b, positive, s).1| == |s| - RunLength(10, s);
    }
  }

  /** A prefixed number takes its prefix and at least one digit. */
  lemma TakesPrefix(b: Bounds, positive: bool, s: string)
    requires Stripped(s) == s && PrefixBase(s).Some?
    ensures |Unsigned(b, positive, s).1| + 3 <= |s| && Unsigned(b, positive, s).0 != Ok(None)
  {
    assert s[2..][0] == s[2];
  }

  /** The sign of a printed number is read as such, and the rest of its text is what is left. */
  lemma SplitSign(b: Bounds, signRequired: bool, n: Notation, plus: bool, x: int, rest: string)
    requires IsNotation(n) && (signRequired ==> plus || x < 0)
    ensures var v: nat := if x < 0 then -x else x;
            var s := n.prefix + Spelled(n.base, n.digits, v) + rest;
            !HasSign(s) && Unsigned(b, x >= 0, s).0 != Ok(None) ==>
              Int(b, signRequired, Printed(n, plus, x) + rest) == Unsigned(b, x >= 0, s)
  {
    hide Unsigned, Spelled;
    var v: nat := if x < 0 then -x else x;
    var s := n.prefix + Spelled(n.base, n.digits, v) + rest;
    var t := Printed(n, plus, x) + rest;
    if x < 0 {
      assert t == "-" + s && t[1..] == s;
    } else if plus {
      assert t == "+" + s && t[1..] == s;
    } else {
      assert t == s;
    }
  }

  /** A number printed in decimal, in hexadecimal with 0x or in octal with 0o, in small or capital letters and with or
      without a plus sign, reads back as itself if it is one of the type and as the error if it is not, and leaves what
      follows it, exactly when what follows cannot be taken for more of the number. */
  lemma ReadsBack(b: Bounds, signRequired: bool, n: Notation, plus: bool, x: int, rest: string)
    requires IsType(b) && IsNotation(n) && (signRequired ==> plus || x < 0)
    ensures Int(b, signRequired, Printed(n, plus, x) + rest) == Wanted(b, x, rest) <==> MayFollow(n, x, rest)
  {
    hide Unsigned, Int, Printed, Spelled, MakesPrefix, IsDigitIn;
    var v: nat := if x < 0 then -x else x;
    UnsignedBack(b, x >= 0, n, v, rest);
    SplitSign(b, signRequired, n, plus, x, rest);
  }

  /** The white space that is skipped. */
  lemma SpacesAre(c: char)
    ensures IsSpace(c) <==> c in " \t\n\U{0B}\U{0C}\r"
  {
  }

  class Converter {
    var working: string

    constructor (buf: string)
      ensures working == buf
    {
      working := buf;
    }

    method TryReadSign() returns (r: Option<bool>)
      modifies this
      ensures r == if HasSign(old(working)) then Some(old(working)[0] == '+') else None
      ensures working == if HasSign(old(working)) then old(working)[1..] else old(working)
    {
      if working == "" {
        return None;
      }
      if working[0] == '+' {
        r := Some(true);
      } else if working[0] == '-' {
        r := Some(false);
      } else {
        return None;
      }
      working := working[1..];
    }

    /** The loop looks at the head without testing for the end, so it reads past the end exactly when nothing but
        white space is left. */
    method ConsumeWhitespace() returns (pastEnd: bool)
      modifies this
      ensures working == Stripped(old(working)) && (pastEnd <==> Stripped(old(working)) == "")
    {
      while true
        invariant Stripped(working) == Stripped(old(working))
        decreases |working|
      {
        if working == "" {
          return true;
        }
        if !IsSpace(working[0]) {
          return false;
        }
        working := working[1..];
      }
    }

    /** The loop of both readers: every digit is consumed, and after the first that does not fit the rest is only
        consumed. */
    method ReadDigits(b: Bounds, positive: bool, base: int) returns (r: Result<Option<int>, Error>)
      requires IsType(b) && IsBase(base)
      modifies this
      ensures var n := RunLength(base, old(working));
              && AllDigits(base, old(working)[..n]) && working == old(working)[n..]
              && r == Outcome(b, positive, base, old(working)[..n])
    {
      assert Value(base, working[..0]) == 0;
      hide Value, DigitOf;
      ghost var s, i := working, 0;
      var cur: int := 0;
      var failed := false;
      while working != "" && DigitOf(base, working[0]) >= 0
        invariant i <= |s| && working == s[i..] && AllDigits(base, s[..i])
        invariant if failed then !InType(b, positive, Value(base, s[..i]))
                  else cur == Signed(positive, Value(base, s[..i])) && Fits(b, cur)
        decreases |working|
      {
        var digit := DigitOf(base, working[0]);
        working := working[1..];
        ValuePush(base, s, i);
        ghost var v := Value(base, s[..i]);
        if failed {
          StaysOut(b, positive, base, v, digit);
        } else {
          SignedStep(positive, base, v, digit);
          var next := Accumulate(b, positive, base, cur, digit);
          if next.Some? {
            cur := next.value;
          } else {
            failed := true;
          }
        }
        i := i + 1;
      }
      RunLengthAt(base, s, i);
      r := if !failed then Ok(Some(cur)) else Err(if positive then Overflow else Underflow);
    }

    method TryReadUnsignedInt(b: Bounds, positive: bool) returns (r: Result<Option<int>, Error>)
      requires IsType(b) && (positive || b.min < 0)
      modifies this
      ensures (r, working) == Decimal(b, positive, old(working))
    {
      var pastEnd := ConsumeWhitespace();
      if pastEnd {
        return Err(PastEnd);
      }
      if DigitOf(10, working[0]) < 0 {
        return Ok(None);
      }
      r := ReadDigits(b, positive, 10);
    }

    method TryReadPrefixedInt(b: Bounds, positive: bool) returns (r: Result<Option<int>, Error>)
      requires IsType(b) && (positive || b.min < 0)
      modifies this
      ensures (r, working) == Prefixed(b, positive, old(working))
    {
      ghost var s := working;
      var csr := 0;
      assert working[0..] == working;
      while csr < |working| && IsSpace(working[csr])
        invariant 0 <= csr <= |working| && Stripped(working[csr..]) == Stripped(working)
      {
        assert working[csr..][1..] == working[csr + 1..];
        csr := csr + 1;
      }
      var t := working[csr..];
      if |t| < 3 || t[0] != '0' {
        return Ok(None);
      }
      var base;
      if t[1] == 'x' || t[1] == 'X' {
        base := 16;
        if DigitOf(16, t[2]) < 0 {
          return Ok(None);
        }
      } else if t[1] == 'o' || t[1] == 'O' {
        base := 8;
        if DigitOf(8, t[2]) < 0 {
          return Ok(None);
        }
      } else {
        return Ok(None);
      }
      working := t[2..];
      r := ReadDigits(b, positive, base);
    }

    method TryReadInt(b: Bounds, signRequired: bool) returns (r: Result<Option<int>, Error>)
      requires IsType(b) && (working != "" && working[0] == '-' ==> b.min < 0)
      modifies this
      ensures (r, working) == Int(b, signRequired, old(working))
    {
      var sign := TryReadSign();
      if sign.None? && signRequired {
        return Ok(None);
      }
      var positive := if sign.Some? then sign.value else true;
      ghost var s := working;
      r := TryReadPrefixedInt(b, positive);
      if r == Ok(None) {
        r := TryReadUnsignedInt(b, positive);
      }
      assert (r, working) == Unsigned(b, positive, s);
      if sign.Some? && r == Ok(None) {
        r := Err(NoDigits);
      }
    }
  }
}
