/** Integer formatting into a fixed buffer: digits are written backwards through a moving pointer and
    reversed in place. */
module LogStreams {

  const DIGITS := "9876543210123456789"
  const ZERO := 9                       // index of '0' in DIGITS
  const HEX_DIGITS := "0123456789abcdef"
  const MAX_NUMERIC_SIZE := 32

  const INT64_MIN := -0x8000_0000_0000_0000
  const UINT64_MAX := 0xffff_ffff_ffff_ffff

  /** C++ division and remainder, which truncate toward zero. */
  function TruncDiv(a: int, b: int): int
    requires b > 0
  {
    if a >= 0 then a / b else -((-a) / b)
  }

  function TruncMod(a: int, b: int): int
    requires b > 0
  {
    a - b * TruncDiv(a, b)
  }

  function DigitChar(d: nat): char
    requires d < 16
  {
    if d < 10 then ('0' as int + d) as char else ('a' as int + d - 10) as char
  }

  /** The usual numeral of `n`, most significant digit first. */
  function Numeral(n: nat, base: nat): (s: string)
    requires 2 <= base <= 16
    ensures |s| > 0
  {
    if n < base then [DigitChar(n)] else Numeral(n / base, base) + [DigitChar(n % base)]
  }

  function Decimal(v: int): string {
    if v < 0 then "-" + Numeral(-v, 10) else Numeral(v, 10)
  }

  /** Reading back: the value of a digit, of a numeral, of a signed decimal; `-1` where there is none. */
  function DigitValue(c: char): int {
    if '0' <= c <= '9' then c as int - '0' as int
    else if 'a' <= c <= 'f' then c as int - 'a' as int + 10
    else -1
  }

  function Value(s: string, base: nat): int {
    if s == "" then 0 else Value(s[..|s| - 1], base) * base + DigitValue(s[|s| - 1])
  }

  function Parse(s: string): int {
    if s != "" && s[0] == '-' then -Value(s[1..], 10) else Value(s, 10)
  }

  lemma DigitRoundTrip(d: nat)
    requires d < 16
    ensures DigitValue(DigitChar(d)) == d && (DigitChar(d) == '0' <==> d == 0) && DigitChar(d) != '-'
  {
  }

  lemma ValueSnoc(s: string, c: char, base: nat)
    ensures Value(s + [c], base) == Value(s, base) * base + DigitValue(c)
  {
    assert (s + [c])[..|s|] == s;
  }

  lemma TimesMonotone(b: nat, x: nat, y: nat)
    requires x <= y
    ensures b * x <= b * y
  {
  }

  lemma DivMod(n: nat, base: nat)
    requires base > 0
    ensures n == (n / base) * base + n % base && 0 <= n % base < base
    ensures n >= base >= 2 ==> n / base < n
  {
    TimesMonotone(n / base, if base >= 2 then 2 else base, base);
  }

  lemma {:induction false} NumeralReadsBack(n: nat, base: nat)
    requires 2 <= base <= 16
    ensures Value(Numeral(n, base), base) == n
  {
    if n < base {
      DigitRoundTrip(n);
      ValueSnoc("", DigitChar(n), base);
      assert "" + [DigitChar(n)] == [DigitChar(n)];
    } else {
      var q, r := n / base, n % base;
      DivMod(n, base);
      DigitRoundTrip(r);
      NumeralReadsBack(q, base);
      ValueSnoc(Numeral(q, base), DigitChar(r), base);
    }
  }

  /** Digits only, and no leading zero except for zero itself. */
  lemma {:induction false} NumeralIsCanonical(n: nat, base: nat)
    requires 2 <= base <= 16
    ensures forall c :: c in Numeral(n, base) ==> 0 <= DigitValue(c) && c != '-'
    ensures Numeral(n, base)[0] == '0' <==> n == 0
  {
    if n < base {
      DigitRoundTrip(n);
    } else {
      DivMod(n, base);
      DigitRoundTrip(n % base);
      NumeralIsCanonical(n / base, base);
    }
  }

  function Power(base: nat, k: nat): nat {
    if k == 0 then 1 else base * Power(base, k - 1)
  }

  lemma QuotientBelow(n: nat, base: nat, m: nat)
    requires base > 0 && n < base * m
    ensures n / base < m
  {
    if n / base >= m {
      TimesMonotone(base, m, n / base);
    }
  }

  lemma {:induction false} NumeralLength(n: nat, base: nat, k: nat)
    requires 2 <= base <= 16 && k > 0 && n < Power(base, k)
    ensures |Numeral(n, base)| <= k
    decreases k
  {
    if n >= base {
      DivMod(n, base);
      QuotientBelow(n, base, Power(base, k - 1));
      NumeralLength(n / base, base, k - 1);
    }
  }

  /** Reading the decimal text of any value gives the value back, so the text determines it. */
  lemma DecimalReadsBack(v: int)
    ensures Parse(Decimal(v)) == v
  {
    var n := if v < 0 then -v else v;
    NumeralReadsBack(n, 10);
    NumeralIsCanonical(n, 10);
    assert v < 0 ==> Decimal(v)[1..] == Numeral(n, 10);
    assert Numeral(n, 10)[0] in Numeral(n, 10);
  }

  /** Over the whole range of 64-bit integers, signed and unsigned, at most 20 characters are needed. */
  lemma DecimalFits(v: int)
    requires INT64_MIN <= v <= UINT64_MAX
    ensures |Decimal(v)| <= 20
  {
    assert Power(10, 19) == 10_000_000_000_000_000_000 && Power(10, 20) == 100_000_000_000_000_000_000 by {
      PowersOfTen();
    }
    if v < 0 {
      NumeralLength(-v, 10, 19);
    } else {
      NumeralLength(v, 10, 20);
    }
  }

  lemma PowersOfTen()
    ensures Power(10, 19) == 10_000_000_000_000_000_000 && Power(10, 20) == 100_000_000_000_000_000_000
  {
    assert Power(10, 5) == 100_000;
    assert Power(10, 10) == 10_000_000_000;
    assert Power(10, 15) == 1_000_000_000_000_000;
  }

  lemma HexFits(n: nat)
    requires n <= UINT64_MAX
    ensures |Numeral(n, 16)| <= 16
  {
    assert Power(16, 8) == 0x1_0000_0000;
    assert Power(16, 16) == 0x1_0000_0000_0000_0000;
    NumeralLength(n, 16, 16);
  }

  function Reversed(s: string): (r: string)
    ensures |r| == |s|
    ensures forall i :: 0 <= i < |s| ==> r[i] == s[|s| - 1 - i]
  {
    seq(|s|, i requires 0 <= i < |s| => s[|s| - 1 - i])
  }

  /** Reverses a stretch of the buffer in place, as `std::reverse` does, and touches nothing else. */
  method Reverse(a: array<char>, lo: nat, hi: nat)
    requires lo <= hi <= a.Length
    modifies a
    ensures forall k :: lo <= k < hi ==> a[k] == old(a[lo + hi - 1 - k])
    ensures forall k :: 0 <= k < lo || hi <= k < a.Length ==> a[k] == old(a[k])
  {
    var i := 0;
    while i < (hi - lo) / 2
      invariant 0 <= i <= (hi - lo) / 2
      invariant forall k :: lo <= k < lo + i || hi - i <= k < hi ==> a[k] == old(a[lo + hi - 1 - k])
      invariant forall k :: 0 <= k < lo || lo + i <= k < hi - i || hi <= k < a.Length ==> a[k] == old(a[k])
    {
      a[lo + i], a[hi - 1 - i] := a[hi - 1 - i], a[lo + i];
      i := i + 1;
    }
  }

  /** What `Reverse` does, on contents. */
  lemma ReversedStretch(was: seq<char>, now: seq<char>, lo: nat, hi: nat)
    requires lo <= hi <= |was| == |now|
    requires forall k :: lo <= k < hi ==> now[k] == was[lo + hi - 1 - k]
    requires forall k :: 0 <= k < lo || hi <= k < |was| ==> now[k] == was[k]
    ensures now[lo..hi] == Reversed(was[lo..hi]) && now[..lo] == was[..lo] && now[hi..] == was[hi..]
  {
    var r := Reversed(was[lo..hi]);
    forall k | 0 <= k < hi - lo ensures now[lo..hi][k] == r[k] {
      assert r[k] == was[lo..hi][hi - lo - 1 - k] == was[hi - 1 - k];
    }
  }

  lemma EmptyReversed()
    ensures Reversed("") == ""
  {
  }

  lemma ReversedSnoc(s: string, c: char)
    ensures Reversed(s + [c]) == [c] + Reversed(s)
  {
  }

  lemma Regroup(a: string, b: string, c: string)
    ensures (a + b) + c == a + (b + c)
  {
  }

  /** The digits a conversion loop has yet to write. */
  function Todo(m: nat, base: nat, started: bool): string
    requires 2 <= base <= 16
  {
    if started && m == 0 then "" else Numeral(m, base)
  }

  lemma NumeralStep(m: nat, base: nat)
    requires 2 <= base <= 16
    ensures m < base ==> m / base == 0 && Numeral(m, base) == [DigitChar(m % base)]
    ensures m >= base ==> m / base > 0 && Numeral(m, base) == Numeral(m / base, base) + [DigitChar(m % base)]
  {
    DivMod(m, base);
    if m < base {
      SmallDivMod(m, base);
    } else {
      QuotientIsPositive(m, base);
    }
  }

  lemma SmallDivMod(m: nat, base: nat)
    requires m < base
    ensures m / base == 0 && m % base == m
  {
  }

  lemma QuotientIsPositive(m: nat, base: nat)
    requires 0 < base <= m
    ensures m / base > 0
  {
    DivMod(m, base);
  }

  lemma TodoStep(m: nat, base: nat, started: bool, done: string, c: char)
    requires 2 <= base <= 16 && (started ==> m != 0) && c == DigitChar(m % base)
    ensures Todo(m, base, started) + Reversed(done) == Todo(m / base, base, true) + Reversed(done + [c])
  {
    ReversedSnoc(done, c);
    NumeralStep(m, base);
    hide Reversed, DigitChar, Numeral;
    if m < base {
      assert "" + Reversed(done + [c]) == [c] + Reversed(done);
    } else {
      Regroup(Numeral(m / base, base), [c], Reversed(done));
    }
  }

  lemma TableDigit(lsd: int)
    requires -9 <= lsd <= 9
    ensures DIGITS[ZERO + lsd] == DigitChar(if lsd < 0 then -lsd else lsd)
  {
  }

  lemma HexTableDigit(lsd: nat)
    requires lsd < 16
    ensures HEX_DIGITS[lsd] == DigitChar(lsd)
  {
  }

  function Abs(v: int): nat {
    if v < 0 then -v else v
  }

  lemma TruncatedStep(i: int)
    ensures Abs(TruncDiv(i, 10)) == Abs(i) / 10 && Abs(TruncMod(i, 10)) == Abs(i) % 10
    ensures TruncDiv(i, 10) == 0 || (TruncDiv(i, 10) < 0 <==> i < 0)
    ensures -9 <= TruncMod(i, 10) <= 9
  {
  }

  /** The `do`-`while` loop. Every value `i` takes lies between the given one and zero, so no division
      or remainder overflows, not even for the most negative integer. */
  method WriteDigits(buf: array<char>, at: nat, value: int) returns (p: nat)
    requires at + |Numeral(Abs(value), 10)| <= buf.Length
    modifies buf
    ensures p == at + |Numeral(Abs(value), 10)|
    ensures Reversed(buf[at..p]) == Numeral(Abs(value), 10) && buf[..at] == old(buf[..at])
  {
    EmptyReversed();
    hide Reversed, Numeral;
    ghost var goal := Numeral(Abs(value), 10);
    var i, started := value, false;
    p := at;
    assert buf[at..p] == "";
    while !started || i != 0
      invariant at <= p && p - at + |Todo(Abs(i), 10, started)| == |goal|
      invariant Todo(Abs(i), 10, started) + Reversed(buf[at..p]) == goal
      invariant buf[..at] == old(buf[..at])
      invariant if value < 0 then value <= i <= 0 else 0 <= i <= value
      decreases !started, Abs(i)
    {
      ghost var m, done := Abs(i), buf[at..p];
      TruncatedStep(i);
      var lsd := TruncMod(i, 10);
      i := TruncDiv(i, 10);
      TableDigit(lsd);
      buf[p] := DIGITS[ZERO + lsd];
      p := p + 1;
      TodoStep(m, 10, started, done, DIGITS[ZERO + lsd]);
      assert buf[at..p] == done + [DIGITS[ZERO + lsd]];
      started := true;
    }
  }

  method Convert(buf: array<char>, at: nat, value: int) returns (len: nat)
    requires at + |Decimal(value)| < buf.Length
    modifies buf
    ensures len == |Decimal(value)|
    ensures buf[at..at + len] == Decimal(value) && buf[at + len] == '\0' && buf[..at] == old(buf[..at])
  {
    hide Reversed, Numeral;
    var p := WriteDigits(buf, at, value);
    if value < 0 {
      p := Negate(buf, at, p);
    }
    assert Reversed(buf[at..p]) == Decimal(value);
    len := Finish(buf, at, p);
  }

  /** Appends the sign, which the reversal will bring to the front. */
  method Negate(buf: array<char>, at: nat, end: nat) returns (p: nat)
    requires at <= end < buf.Length
    modifies buf
    ensures p == end + 1 && buf[..at] == old(buf[..at])
    ensures Reversed(buf[at..p]) == "-" + Reversed(old(buf[at..end]))
  {
    ghost var done := buf[at..end];
    buf[end] := '-';
    p := end + 1;
    assert buf[at..p] == done + ['-'];
    ReversedSnoc(done, '-');
  }

  /** Terminates and reverses what was written backwards. */
  method Finish(buf: array<char>, at: nat, p: nat) returns (len: nat)
    requires at <= p < buf.Length
    modifies buf
    ensures len == p - at
    ensures buf[at..p] == Reversed(old(buf[at..p])) && buf[p] == '\0' && buf[..at] == old(buf[..at])
  {
    buf[p] := '\0';
    ghost var was := buf[..];
    Reverse(buf, at, p);
    len := p - at;
    ReversedStretch(was, buf[..], at, p);
    assert buf[..][at..p] == buf[at..p] && was[at..p] == old(buf[at..p]);
    assert buf[..][..at] == buf[..at] && was[..at] == old(buf[..at]);
  }

  method ConvertHex(buf: array<char>, at: nat, value: nat) returns (len: nat)
    requires at + |Numeral(value, 16)| < buf.Length
    modifies buf
    ensures len == |Numeral(value, 16)|
    ensures buf[at..at + len] == Numeral(value, 16) && buf[at + len] == '\0' && buf[..at] == old(buf[..at])
  {
    EmptyReversed();
    hide Reversed, Numeral;
    var i, p, started := value, at, false;
    assert buf[at..p] == "";
    while !started || i != 0
      invariant at <= p && p - at + |Todo(i, 16, started)| == |Numeral(value, 16)|
      invariant Todo(i, 16, started) + Reversed(buf[at..p]) == Numeral(value, 16)
      invariant buf[..at] == old(buf[..at])
      decreases !started, i
    {
      ghost var m, done := i, buf[at..p];
      var lsd := i % 16;
      i := i / 16;
      HexTableDigit(lsd);
      buf[p] := HEX_DIGITS[lsd];
      p := p + 1;
      TodoStep(m, 16, started, done, HEX_DIGITS[lsd]);
      assert buf[at..p] == done + [HEX_DIGITS[lsd]];
      started := true;
    }
    assert Reversed(buf[at..p]) == Numeral(value, 16);
    len := Finish(buf, at, p);
  }

  /** The fixed buffer of a log line, or of a block of them: `cur` characters of `data` are used. */
  class FixBuffer {
    const data: array<char>
    var cur: nat

    ghost predicate Valid()
      reads this
    {
      cur <= data.Length
    }

    ghost function Text(): string
      requires Valid()
      reads this, data
    {
      data[..cur]
    }

    constructor (size: nat)
      ensures Valid() && fresh(data) && data.Length == size && Text() == ""
    {
      data := new char[size];
      cur := 0;
    }

    /** Appends only if at least one character stays free; otherwise does nothing. */
    method Append(s: string)
      requires Valid()
      modifies this, data
      ensures Valid()
      ensures Text() == old(Text()) + (if old(data.Length - cur) > |s| then s else "")
    {
      if data.Length - cur > |s| {
        ghost var before := data[..cur];
        for i := 0 to |s|
          invariant cur == old(cur) && data[..cur + i] == before + s[..i]
        {
          data[cur + i] := s[i];
        }
        cur := cur + |s|;
      }
    }

    /** Counts `len` characters written behind the text as part of it. */
    method Add(len: nat)
      requires Valid() && cur + len <= data.Length
      modifies `cur
      ensures Valid() && cur == old(cur) + len && Text() == old(Text()) + data[old(cur)..old(cur) + len]
    {
      cur := cur + len;
      assert data[..cur] == data[..cur - len] + data[cur - len..cur];
    }

    /** `LogStream::operator<<` of an integer type: all of its decimal text, or nothing. */
    method FormatInteger(v: int)
      requires Valid() && INT64_MIN <= v <= UINT64_MAX
      modifies this, data
      ensures Valid()
      ensures Text() == old(Text()) + (if old(data.Length - cur) >= MAX_NUMERIC_SIZE then Decimal(v) else "")
    {
      if data.Length - cur >= MAX_NUMERIC_SIZE {
        hide Decimal;
        DecimalFits(v);
        var len := Convert(data, cur, v);
        Add(len);
      }
    }

    /** `LogStream::operator<<(const void *)`. */
    method FormatPointer(v: nat)
      requires Valid() && v <= UINT64_MAX
      modifies this, data
      ensures Valid()
      ensures Text() == old(Text()) + (if old(data.Length - cur) >= MAX_NUMERIC_SIZE then "0x" + Numeral(v, 16) else "")
    {
      if data.Length - cur >= MAX_NUMERIC_SIZE {
        hide Numeral;
        HexFits(v);
        ghost var before := data[..cur];
        data[cur] := '0';
        data[cur + 1] := 'x';
        assert data[..cur + 2] == before + "0x";
        var len := ConvertHex(data, cur + 2, v);
        ghost var at := cur;
        assert data[at..at + 2] == data[..at + 2][at..] == "0x";
        assert data[at..at + (len + 2)] == data[at..at + 2] + data[at + 2..at + 2 + len];
        assert data[..at] == data[..at + 2][..at] == before;
        Add(len + 2);
      }
    }

    method Reset()
      modifies this
      ensures Valid() && Text() == ""
    {
      cur := 0;
    }
  }
}
