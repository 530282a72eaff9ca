/** Decimal printing and parsing of fmt: count_digits, format_decimal, FormatInt, parse_nonnegative_int. */
module Digits {
  import opened Radix

  const ULL_END: nat := 0x1_0000_0000_0000_0000
  const UINT_MAX: nat := 0xFFFF_FFFF
  const INT_MAX: nat := 0x7FFF_FFFF

  function DigitChar(d: nat): char
    requires d < 10
  {
    '0' + d as char
  }

  predicate IsDigit(c: char) {
    '0' <= c <= '9'
  }

  function DigitValue(c: char): (d: nat)
    requires IsDigit(c)
    ensures d < 10 && c == DigitChar(d)
  {
    (c - '0') as nat
  }

  /** The decimal numeral of n: no leading zero but for 0 itself. */
  function Numeral(n: nat): (s: string)
    ensures |s| >= 1 && forall c | c in s :: IsDigit(c)
    ensures n > 0 ==> s[0] != '0'
  {
    if n < 10 then [DigitChar(n)] else Numeral(n / 10) + [DigitChar(n % 10)]
  }

  /** What a string of digits stands for. */
  function Value(s: string): nat
    requires forall c | c in s :: IsDigit(c)
  {
    if s == [] then 0 else
      assert s[|s| - 1] in s;
      Value(s[..|s| - 1]) * 10 + DigitValue(s[|s| - 1])
  }

  lemma {:induction false} ValueOfNumeral(n: nat)
    ensures Value(Numeral(n)) == n
  {
    var s := Numeral(n);
    if n < 10 {
      assert s[..0] == [];
      assert Value(s[..0]) == 0;
    } else {
      assert s[..|s| - 1] == Numeral(n / 10);
      ValueOfNumeral(n / 10);
    }
  }

  function Pow10(k: nat): (p: nat)
    ensures p >= 1
  {
    if k == 0 then 1 else 10 * Pow10(k - 1)
  }

  /** The numeral has k digits exactly for 10^(k-1) <= n < 10^k, and for n == 0 one. */
  lemma {:induction false} NumeralLength(n: nat, k: nat)
    requires k >= 1
    ensures |Numeral(n)| <= k <==> n < Pow10(k)
  {
    if k == 1 {
      assert Pow10(1) == 10;
      if n >= 10 { assert |Numeral(n / 10)| >= 1; }
    } else if n >= 10 {
      NumeralLength(n / 10, k - 1);
    } else {
      PowAtLeast(k);
    }
  }

  lemma {:induction false} PowAtLeast(k: nat)
    requires k >= 1
    ensures Pow10(k) >= 10
  {
    if k > 1 { PowAtLeast(k - 1); }
  }

  // ---- count_digits ----

  /** `64 - FMT_BUILTIN_CLZLL(n)`: how many bits n has */
  function BitLength(n: nat): (b: nat)
    requires n > 0
    ensures b >= 1 && Pow2(b - 1) <= n < Pow2(b)
  {
    if n == 1 then 1 else BitLength(n / 2) + 1
  }

  /** `n | 1` */
  function OrOne(n: nat): nat {
    if n % 2 == 0 then n + 1 else n
  }

  /** POWERS_OF_10_64 */
  function Power(t: nat): nat {
    if t == 0 then 0 else Pow10(t)
  }

  /** `bits * 1233 >> 12`, an approximation of the decimal logarithm */
  function Log(b: nat): nat {
    b * 1233 / 4096
  }

  /** It is never off by more than the comparison afterwards corrects. */
  ghost predicate Bracket(b: nat)
    requires b >= 1
  {
    Log(b) <= 19 && Pow2(b) <= Pow10(Log(b) + 1) && (Log(b) >= 1 ==> Pow10(Log(b) - 1) <= Pow2(b - 1) && b >= 2)
  }

  /** The least b - 1 with Log(b) == t */
  function Edge(t: nat): int {
    if t == 0 then 0 else if t == 20 then 64 else (4096 * t + 1232) / 1233 - 1
  }

  /** Around each edge the power of two lies between two powers of ten. */
  ghost predicate EdgeOk(t: nat) {
    Edge(t) >= 0 && (t >= 1 ==> Pow10(t - 1) <= Pow2(Edge(t)) <= Pow10(t))
  }

  /** From one edge to the next. */
  lemma EdgeStep(t: nat, e: nat, d: nat, v: nat, w: nat)
    requires Pow2(e) == v && Pow10(t) == w && d in {1, 3, 4}
    ensures Pow2(e + d) == v * (if d == 1 then 2 else if d == 3 then 8 else 16) && Pow10(t + 1) == 10 * w
  {
    Pow2Add(e, d);
    assert Pow2(1) == 2 && Pow2(3) == 8 && Pow2(4) == 16;
  }

  lemma EdgeStart()
    ensures Pow2(0) == 1 && Pow10(0) == 1
  {
  }

  lemma Edges0()
    ensures EdgeOk(0)
    ensures EdgeOk(1)
    ensures EdgeOk(2)
    ensures EdgeOk(3)
    ensures EdgeOk(4)
    ensures Pow2(13) == 8192 && Pow10(4) == 10000
  {
    hide Pow2, Pow10;
    EdgeStart();
    EdgeStep(0, 0, 3, 1, 1);
    EdgeStep(1, 3, 3, 8, 10);
    EdgeStep(2, 6, 3, 64, 100);
    EdgeStep(3, 9, 4, 512, 1000);
  }

  lemma Edges1()
    ensures EdgeOk(5)
    ensures EdgeOk(6)
    ensures EdgeOk(7)
    ensures EdgeOk(8)
    ensures Pow2(26) == 67108864 && Pow10(8) == 100000000
  {
    hide Pow2, Pow10;
    Edges0();
    EdgeStep(4, 13, 3, 8192, 10000);
    EdgeStep(5, 16, 3, 65536, 100000);
    EdgeStep(6, 19, 4, 524288, 1000000);
    EdgeStep(7, 23, 3, 8388608, 10000000);
  }

  lemma Edges2()
    ensures EdgeOk(9)
    ensures EdgeOk(10)
    ensures EdgeOk(11)
    ensures EdgeOk(12)
    ensures Pow2(39) == 549755813888 && Pow10(12) == 1000000000000
  {
    hide Pow2, Pow10;
    Edges1();
    EdgeStep(8, 26, 3, 67108864, 100000000);
    EdgeStep(9, 29, 4, 536870912, 1000000000);
    EdgeStep(10, 33, 3, 8589934592, 10000000000);
    EdgeStep(11, 36, 3, 68719476736, 100000000000);
  }

  lemma Edges3()
    ensures EdgeOk(13)
    ensures EdgeOk(14)
    ensures EdgeOk(15)
    ensures EdgeOk(16)
    ensures Pow2(53) == 9007199254740992 && Pow10(16) == 10000000000000000
  {
    hide Pow2, Pow10;
    Edges2();
    EdgeStep(12, 39, 4, 549755813888, 1000000000000);
    EdgeStep(13, 43, 3, 8796093022208, 10000000000000);
    EdgeStep(14, 46, 3, 70368744177664, 100000000000000);
    EdgeStep(15, 49, 4, 562949953421312, 1000000000000000);
  }

  lemma Edges4()
    ensures EdgeOk(17)
    ensures EdgeOk(18)
    ensures EdgeOk(19)
    ensures EdgeOk(20)
    ensures Pow2(64) == 18446744073709551616 && Pow10(20) == 100000000000000000000
  {
    hide Pow2, Pow10;
    Edges3();
    EdgeStep(16, 53, 3, 9007199254740992, 10000000000000000);
    EdgeStep(17, 56, 3, 72057594037927936, 100000000000000000);
    EdgeStep(18, 59, 4, 576460752303423488, 1000000000000000000);
    EdgeStep(19, 63, 1, 9223372036854775808, 10000000000000000000);
  }

  lemma EdgeValues(t: nat)
    requires t <= 20
    ensures EdgeOk(t)
    ensures Pow2(64) == ULL_END && ULL_END <= Pow10(20)
  {
    hide EdgeOk, Pow2, Pow10;
    Edges0(); Edges1(); Edges2(); Edges3(); Edges4();
    assert t in {0, 1, 2, 3, 4, 5, 6, 7, 8, 9, 10, 11, 12, 13, 14, 15, 16, 17, 18, 19, 20};
  }

  lemma {:induction false} Pow2Mono(a: nat, b: nat)
    requires a <= b
    ensures Pow2(a) <= Pow2(b)
  {
    if a < b { Pow2Mono(a, b - 1); }
  }

  lemma LogBetween(b: nat)
    requires 1 <= b <= 64
    ensures Log(b) <= 19 && 0 <= Edge(Log(b)) <= b - 1 && b <= Edge(Log(b) + 1)
  {
  }

  lemma Brackets(b: nat)
    requires 1 <= b <= 64
    ensures Bracket(b)
  {
    hide Pow2, Pow10;
    var t := Log(b);
    LogBetween(b);
    EdgeValues(t);
    EdgeValues(t + 1);
    Pow2Mono(Edge(t), b - 1);
    Pow2Mono(b, Edge(t + 1));
  }

  /** `count_digits`, with the builtin that counts leading zeros */
  function CountDigits(n: nat): int {
    var t := Log(BitLength(OrOne(n)));
    t - (if n < Power(t) then 1 else 0) + 1
  }

  lemma {:induction false} BitsBelow(n: nat, b: nat)
    requires n > 0 && n < Pow2(b)
    ensures BitLength(n) <= b
  {
    if n == 1 {
      assert Pow2(0) == 1;
    } else {
      BitsBelow(n / 2, b - 1);
    }
  }

  lemma OrOneIs(n: nat, b: nat)
    requires b >= 1
    ensures OrOne(n) < 2 * Pow2(b - 1) <==> n < 2 * Pow2(b - 1)
    ensures b >= 2 ==> (Pow2(b - 1) <= OrOne(n) <==> Pow2(b - 1) <= n)
  {
    assert b >= 2 ==> Pow2(b - 1) == 2 * Pow2(b - 2);
  }

  /** It is the true number of digits, for every 64-bit number. */
  lemma CountIsLength(n: nat)
    requires n < ULL_END
    ensures CountDigits(n) == |Numeral(n)|
  {
    hide Pow2, Pow10, Log, Numeral, BitLength;
    var m := OrOne(n);
    var b := BitLength(m);
    EdgeValues(0);
    BitsBelow(m, 64);
    Brackets(b);
    OrOneIs(n, b);
    var t := Log(b);
    assert Pow2(b) == 2 * Pow2(b - 1) by { DoublePow(b); }
    NumeralLength(n, t + 1);
    if t >= 1 { NumeralLength(n, t); }
    if t >= 2 { NumeralLength(n, t - 1); }
  }

  lemma DoublePow(b: nat)
    requires b >= 1
    ensures Pow2(b) == 2 * Pow2(b - 1)
  {
  }

  /** The fallback: four digits at a time. */
  method CountDigitsFallback(n0: nat) returns (count: nat)
    ensures count == |Numeral(n0)|
  {
    var n := n0;
    count := 1;
    while true
      invariant count + |Numeral(n)| == |Numeral(n0)| + 1
      decreases n
    {
      NumeralLength(n, 1); NumeralLength(n, 2); NumeralLength(n, 3); NumeralLength(n, 4);
      assert Pow10(1) == 10 && Pow10(2) == 100 && Pow10(3) == 1000 && Pow10(4) == 10000;
      if n < 10 { return; }
      if n < 100 { return count + 1; }
      if n < 1000 { return count + 2; }
      if n < 10000 { return count + 3; }
      FourDigits(n);
      n := n / 10000;
      count := count + 4;
    }
  }

  lemma FourDigits(n: nat)
    requires n >= 10000
    ensures |Numeral(n)| == |Numeral(n / 10000)| + 4
  {
    OneDigit(n);
    OneDigit(n / 10);
    OneDigit(n / 10 / 10);
    OneDigit(n / 10 / 10 / 10);
    assert n / 10 / 10 / 10 / 10 == n / 10000;
  }

  lemma OneDigit(n: nat)
    requires n >= 10
    ensures |Numeral(n)| == |Numeral(n / 10)| + 1
  {
  }

  // ---- format_decimal ----

  /** Data::DIGITS: "00", "01", ... "99" */
  function PairChar(index: nat): char
    requires index < 200
  {
    if index % 2 == 0 then DigitChar(index / 2 / 10) else DigitChar(index / 2 % 10)
  }

  lemma TwoDigits(value: nat)
    requires value >= 100
    ensures var index := value % 100 * 2;
            Numeral(value) == Numeral(value / 100) + [PairChar(index), PairChar(index + 1)]
  {
    var index := value % 100 * 2;
    assert index / 2 == value % 100 && (index + 1) / 2 == value % 100;
    assert value / 10 / 10 == value / 100 && value / 10 % 10 == value % 100 / 10 && value % 10 == value % 100 % 10;
    assert Numeral(value) == Numeral(value / 10) + [DigitChar(value % 10)];
    assert Numeral(value / 10) == Numeral(value / 100) + [DigitChar(value / 10 % 10)];
  }

  lemma LastDigits(value: nat)
    requires 10 <= value < 100
    ensures Numeral(value) == [PairChar(value * 2), PairChar(value * 2 + 1)]
  {
    assert value * 2 / 2 == value && (value * 2 + 1) / 2 == value;
    assert Numeral(value / 10) == [DigitChar(value / 10)];
  }

  /** `*--buffer = DIGITS[index + 1]; *--buffer = DIGITS[index]` */
  method PutPair(buffer: array<char>, p: nat, index: nat, ghost end: nat)
    requires 2 <= p <= end <= buffer.Length && index + 1 < 200
    modifies buffer
    ensures buffer[p - 2..end] == [PairChar(index), PairChar(index + 1)] + old(buffer[p..end])
    ensures buffer[..p - 2] == old(buffer[..p - 2]) && buffer[end..] == old(buffer[end..])
  {
    buffer[p - 1] := PairChar(index + 1);
    buffer[p - 2] := PairChar(index);
  }

  /** The loop of both `format_decimal`s: the numeral, written backwards so that it ends at `end`. */
  method WriteBackwards(buffer: array<char>, end: nat, value0: nat) returns (start: nat)
    requires end <= buffer.Length && |Numeral(value0)| <= end
    modifies buffer
    ensures start + |Numeral(value0)| == end && buffer[start..end] == Numeral(value0)
    ensures buffer[..start] == old(buffer[..start]) && buffer[end..] == old(buffer[end..])
  {
    hide PairChar, Numeral;
    var p, value := end, value0;
    while value >= 100
      invariant p <= end && |Numeral(value)| <= p && |Numeral(value)| + (end - p) == |Numeral(value0)|
      invariant Numeral(value) + buffer[p..end] == Numeral(value0)
      invariant buffer[..p] == old(buffer[..p]) && buffer[end..] == old(buffer[end..])
    {
      TwoDigits(value);
      var index := value % 100 * 2;
      value := value / 100;
      Prefix(old(buffer[..]), buffer[..], p - 2, p);
      PutPair(buffer, p, index, end);
      p := p - 2;
    }
    if value < 10 {
      ghost var tail := buffer[p..end];
      assert Numeral(value) == [DigitChar(value)] by { ShortNumeral(value); }
      Prefix(old(buffer[..]), buffer[..], p - 1, p);
      p := p - 1;
      buffer[p] := DigitChar(value);
      assert buffer[p..end] == [DigitChar(value)] + tail;
      return p;
    }
    LastDigits(value);
    Prefix(old(buffer[..]), buffer[..], p - 2, p);
    PutPair(buffer, p, value * 2, end);
    start := p - 2;
  }

  lemma ShortNumeral(value: nat)
    requires value < 10
    ensures Numeral(value) == [DigitChar(value)]
  {
  }

  lemma Prefix(a: string, b: string, i: nat, j: nat)
    requires i <= j <= |a| == |b|
    ensures a[..j] == b[..j] ==> a[..i] == b[..i]
  {
    assert a[..j][..i] == a[..i] && b[..j][..i] == b[..i];
  }

  /** `format_decimal(buffer, value, count_digits(value))` fills exactly that many characters. */
  method FormatDecimal(buffer: array<char>, value: nat)
    requires value < ULL_END && CountDigits(value) <= buffer.Length
    modifies buffer
    ensures CountDigits(value) >= 1 && buffer[..CountDigits(value)] == Numeral(value)
    ensures buffer[CountDigits(value)..] == old(buffer[CountDigits(value)..])
  {
    CountIsLength(value);
    var start := WriteBackwards(buffer, CountDigits(value), value);
  }

  /** FormatInt: a 64-bit number in a buffer of its own, signed or not. */
  class FormatInt {
    const buffer: array<char>
    var str: nat

    /** What data() and size() give. */
    ghost function Text(): string
      requires buffer.Length == 22 && str <= 21
      reads this, buffer
    {
      buffer[str..21]
    }

    constructor Unsigned(value: nat)
      requires value < ULL_END
      ensures buffer.Length == 22 && str <= 21 && fresh(buffer) && Text() == Numeral(value)
    {
      buffer := new char[22];
      str := 0;
      new;
      TwentyDigits(value);
      str := WriteBackwards(buffer, 21, value);
    }

    /** `FormatSigned`: the magnitude is taken modulo 2^64, so the least number is printed right, too. */
    constructor Signed(value: int)
      requires -(ULL_END / 2) <= value < ULL_END / 2
      ensures buffer.Length == 22 && str <= 21 && fresh(buffer)
      ensures Text() == if value < 0 then "-" + Numeral(-value) else Numeral(value)
    {
      buffer := new char[22];
      str := 0;
      new;
      var abs_value := value % ULL_END;
      if value < 0 {
        abs_value := (0 - abs_value) % ULL_END;
      }
      assert abs_value == if value < 0 then -value else value;
      TwentyDigits(abs_value);
      var s := WriteBackwards(buffer, 21, abs_value);
      ghost var digits := buffer[s..21];
      if value < 0 {
        s := s - 1;
        buffer[s] := '-';
        assert buffer[s..21] == "-" + digits;
      }
      str := s;
    }
  }

  lemma TwentyDigits(value: nat)
    requires value < ULL_END
    ensures |Numeral(value)| <= 20
  {
    EdgeValues(0);
    NumeralLength(value, 20);
  }

  // ---- parse_nonnegative_int ----

  datatype Parsed = Ok(value: nat) | TooBig

  /** What 32 bits keep of a number. */
  function Low(v: nat): nat {
    v % 0x1_0000_0000
  }

  /** v without its last e digits */
  function Cut(v: nat, e: nat): nat
    decreases e
  {
    if e == 0 then v else Cut(v / 10, e - 1)
  }

  /** The overflow test fires: leaving off some digits of v, one more digit makes the 32 low bits smaller. */
  ghost predicate Noticed(v: nat) {
    exists e: nat :: Smaller(v, e)
  }

  ghost predicate Smaller(v: nat, e: nat) {
    Low(Cut(v, e)) < Low(Cut(v, e + 1))
  }

  /** The test after the last digit, or an earlier one. */
  lemma NoticedLast(v: nat)
    ensures Noticed(v) <==> Low(v) < Low(v / 10) || Noticed(v / 10)
  {
    assert Cut(v, 0) == v && Cut(v, 1) == v / 10;
    assert Smaller(v, 0) <==> Low(v) < Low(v / 10);
    forall e: nat
      ensures Smaller(v / 10, e) <==> Smaller(v, e + 1)
    {
    }
    if e: nat :| Smaller(v, e) {
      if e > 0 { assert Smaller(v / 10, e - 1); }
    }
    if e: nat :| Smaller(v / 10, e) {
      assert Smaller(v, e + 1);
    }
  }

  /** What `parse_nonnegative_int` makes of a run of digits of value v: the low bits, unless it notices. */
  ghost function Outcome(v: nat): Parsed {
    if Noticed(v) || Low(v) > INT_MAX then TooBig else Ok(Low(v))
  }

  /** What it should make of it. */
  function Wanted(v: nat): Parsed {
    if v <= INT_MAX then Ok(v) else TooBig
  }

  /** Up to UINT_MAX nothing wraps, and the test has nothing to notice. */
  lemma {:induction false} NothingToNotice(v: nat)
    requires v <= UINT_MAX
    ensures !Noticed(v) && Outcome(v) == Wanted(v)
    decreases v
  {
    NoticedLast(v);
    if v > 0 {
      NothingToNotice(v / 10);
    } else {
      forall e: nat
        ensures !Smaller(0, e)
      {
        CutZero(e);
        CutZero(e + 1);
      }
    }
  }

  lemma {:induction false} CutZero(e: nat)
    ensures Cut(0, e) == 0
  {
    if e > 0 { CutZero(e - 1); }
  }

  /** Exactly when the result is right: the value fits, or wrapping is noticed on the way, or what is left is too big. */
  lemma ParseExact(v: nat)
    ensures Outcome(v) == Wanted(v) <==> v <= UINT_MAX || Noticed(v) || Low(v) > INT_MAX
  {
    if v <= UINT_MAX { NothingToNotice(v); }
  }

  /** With ten digits only the last test can fire. */
  lemma ParseExactTen(v: nat)
    requires v / 10 <= UINT_MAX
    ensures Outcome(v) == Wanted(v) <==> v <= UINT_MAX || Low(v) < v / 10 || Low(v) > INT_MAX
  {
    ParseExact(v);
    NoticedLast(v);
    NothingToNotice(v / 10);
  }

  ghost predicate AllDigits(s: string) {
    forall c | c in s :: IsDigit(c)
  }

  lemma {:induction false} ValueBelow(s: string)
    requires AllDigits(s)
    ensures Value(s) < Pow10(|s|)
  {
    if s != [] { ValueBelow(s[..|s| - 1]); }
  }

  /** Ten characters hold no more than ten digits. */
  lemma TenDigits(s: string)
    requires AllDigits(s) && |s| <= 10
    ensures Value(s) / 10 <= UINT_MAX
  {
    ValueBelow(s);
    assert Pow10(4) == 10000;
    assert Pow10(8) == 100000000;
    assert Pow10(10) == 10000000000;
    PowMono(|s|, 10);
  }

  lemma {:induction false} PowMono(a: nat, b: nat)
    requires a <= b
    ensures Pow10(a) <= Pow10(b)
  {
    if a < b { PowMono(a, b - 1); }
  }

  /** `parse_nonnegative_int`: digits from position i on, in 32-bit arithmetic; the string ends in something else. */
  method ParseNonnegativeInt(s: string, i: nat) returns (r: Parsed, i': nat)
    requires i < |s| && IsDigit(s[i]) && !IsDigit(s[|s| - 1])
    ensures forall j: nat | Run(s, i, j) :: r == Outcome(Value(s[i..j]))
    ensures forall j: nat | Run(s, i, j) :: !Noticed(Value(s[i..j])) ==> i' == j
    ensures forall j: nat | Run(s, i, j) && Value(s[i..j]) <= UINT_MAX :: i' == j && r == Wanted(Value(s[i..j]))
    ensures forall j: nat | Run(s, i, j) && j <= i + 10 :: var v := Value(s[i..j]);
              r == Wanted(v) <==> v <= UINT_MAX || Low(v) < v / 10 || Low(v) > INT_MAX
  {
    hide Value, Noticed, Low;
    var value, p := 0, i;
    NothingRead(s, i);
    while true
      invariant i <= p < |s| && IsDigit(s[p]) && AllDigits(s[i..p])
      invariant value == Low(Value(s[i..p])) && !Noticed(Value(s[i..p]))
      decreases |s| - p
    {
      var new_value := (value * 10 + DigitValue(s[p])) % 0x1_0000_0000;
      NextDigit(s, i, p);
      p := p + 1;
      if new_value < value {
        value := UINT_MAX;
        break;
      }
      value := new_value;
      if !IsDigit(s[p]) {
        break;
      }
    }
    r := if value > INT_MAX then TooBig else Ok(value);
    i' := p;
    forall j: nat | Run(s, i, j)
      ensures r == Outcome(Value(s[i..j])) && (!Noticed(Value(s[i..j])) ==> i' == j)
    {
      RunFrom(s, i, p, j);
      StillNoticed(s, i, p, j);
    }
    RunOutcomes(s, i);
  }

  lemma RunOutcomes(s: string, i: nat)
    ensures forall j: nat | Run(s, i, j) && Value(s[i..j]) <= UINT_MAX ::
              !Noticed(Value(s[i..j])) && Outcome(Value(s[i..j])) == Wanted(Value(s[i..j]))
    ensures forall j: nat | Run(s, i, j) && j <= i + 10 :: var v := Value(s[i..j]);
              Outcome(v) == Wanted(v) <==> v <= UINT_MAX || Low(v) < v / 10 || Low(v) > INT_MAX
  {
    forall j: nat | Run(s, i, j) && Value(s[i..j]) <= UINT_MAX
      ensures !Noticed(Value(s[i..j])) && Outcome(Value(s[i..j])) == Wanted(Value(s[i..j]))
    {
      NothingToNotice(Value(s[i..j]));
    }
    forall j: nat | Run(s, i, j) && j <= i + 10
      ensures var v := Value(s[i..j]);
              Outcome(v) == Wanted(v) <==> v <= UINT_MAX || Low(v) < v / 10 || Low(v) > INT_MAX
    {
      TenDigits(s[i..j]);
      ParseExactTen(Value(s[i..j]));
    }
  }

  lemma NothingRead(s: string, i: nat)
    requires i <= |s|
    ensures AllDigits(s[i..i]) && Low(Value(s[i..i])) == 0 && !Noticed(Value(s[i..i]))
  {
    NothingToNotice(0);
  }

  lemma LowStep(v: nat, d: nat)
    ensures Low(v * 10 + d) == (Low(v) * 10 + d) % 0x1_0000_0000
  {
    var m: nat := 0x1_0000_0000;
    var q, r := v / m, v % m;
    var q', r' := (r * 10 + d) / m, (r * 10 + d) % m;
    assert v * 10 + d == (q * 10 + q') * m + r';
  }

  /** One more digit. */
  lemma NextDigit(s: string, i: nat, p: nat)
    requires i <= p < |s| && IsDigit(s[p]) && AllDigits(s[i..p])
    ensures AllDigits(s[i..p + 1])
    ensures Low(Value(s[i..p + 1])) == (Low(Value(s[i..p])) * 10 + DigitValue(s[p])) % 0x1_0000_0000
    ensures Noticed(Value(s[i..p + 1])) <==> Low(Value(s[i..p + 1])) < Low(Value(s[i..p])) || Noticed(Value(s[i..p]))
  {
    hide Low, Noticed;
    assert s[i..p + 1][..p - i] == s[i..p] && s[i..p + 1] == s[i..p] + [s[p]];
    var v, d := Value(s[i..p]), DigitValue(s[p]);
    assert Value(s[i..p + 1]) == v * 10 + d && (v * 10 + d) / 10 == v;
    LowStep(v, d);
    NoticedLast(v * 10 + d);
  }

  /** What was noticed once is not forgotten. */
  lemma {:induction false} StillNoticed(s: string, i: nat, p: nat, j: nat)
    requires i <= p <= j <= |s| && AllDigits(s[i..j])
    ensures AllDigits(s[i..p]) && (Noticed(Value(s[i..p])) ==> Noticed(Value(s[i..j])))
    decreases j
  {
    assert s[i..p] == s[i..j][..p - i];
    if p < j {
      assert s[i..j - 1] == s[i..j][..j - 1 - i] && s[j - 1] == s[i..j][j - 1 - i];
      StillNoticed(s, i, p, j - 1);
      NextDigit(s, i, j - 1);
    }
  }

  /** A run ends at its first non-digit. */
  lemma RunFrom(s: string, i: nat, p: nat, j: nat)
    requires i <= p < |s| && AllDigits(s[i..p]) && Run(s, i, j)
    ensures p <= j && (!IsDigit(s[p]) ==> j == p)
  {
    if p < j { assert s[i..j][p - i] == s[p]; }
  }

  /** The maximal run of digits from i on ends before j. */
  ghost predicate Run(s: string, i: nat, j: nat) {
    i < j < |s| && !IsDigit(s[j]) && forall c | c in s[i..j] :: IsDigit(c)
  }

  /** Printing and parsing: every int that is printed, followed by anything but a digit, is read back. */
  method RoundTrip(n: nat, rest: string) returns (r: Parsed, i: nat)
    requires |rest| > 0 && !IsDigit(rest[0]) && !IsDigit(rest[|rest| - 1])
    ensures n <= INT_MAX ==> r == Ok(n)
    ensures INT_MAX < n <= UINT_MAX ==> r == TooBig
    ensures n <= UINT_MAX ==> i == |Numeral(n)|
  {
    var s := Numeral(n) + rest;
    ghost var j := |Numeral(n)|;
    assert s[0..j] == Numeral(n) && s[0] in Numeral(n);
    ValueOfNumeral(n);
    assert Run(s, 0, j);
    r, i := ParseNonnegativeInt(s, 0);
  }

  /** A product that wraps to something larger escapes the test: five thousand million is accepted, as 705032704. */
  method WrapsUnseen() returns (r: Parsed, i: nat)
    ensures AllDigits("5000000000") && Value("5000000000") == 5000000000 > UINT_MAX
    ensures r == Ok(705032704) && i == 10
  {
    var s := "5000000000.";
    ghost var d := FiveThousandMillion();
    assert s[0..10] == d;
    assert Run(s, 0, 10);
    ParseExactTen(Value(d));
    NoticedLast(Value(d));
    NothingToNotice(500000000);
    r, i := ParseNonnegativeInt(s, 0);
  }

  lemma OneMoreZero(n: nat)
    requires n > 0
    ensures Numeral(10 * n) == Numeral(n) + "0"
  {
  }

  lemma FiveThousandMillion() returns (d: string)
    ensures d == "5000000000" && AllDigits(d) && Value(d) == 5000000000
  {
    hide Value, Numeral;
    d := Numeral(5000000000);
    ValueOfNumeral(5000000000);
    OneMoreZero(500000000);
    OneMoreZero(50000000);
    OneMoreZero(5000000);
    OneMoreZero(500000);
    OneMoreZero(50000);
    OneMoreZero(5000);
    OneMoreZero(500);
    OneMoreZero(50);
    OneMoreZero(5);
    FiveIs();
  }

  lemma FiveIs()
    ensures Numeral(5) == "5"
  {
  }
}
