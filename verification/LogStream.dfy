/** Integer formatting of the log stream (log/LogStream.cc): digits produced by truncating
    division through a mirrored table, then reversed in place in the log buffer. */
module LogStreams {
  import opened Basics
  import opened FixedBuffers

  /** Bytes the formatter asks for before it writes anything. */
  const MAX_NUM_SIZE: nat := 32

  const MINUS: byte := 45

  /** The range of every integer type the stream accepts: 64 bits, signed or unsigned. */
  predicate InRange(n: int) {
    -0x8000_0000_0000_0000 <= n < 0x1_0000_0000_0000_0000
  }

  function DigitChar(d: int): byte
    requires 0 <= d <= 9
  {
    (48 + d) as byte
  }

  /** The table "9876543210123456789": entry 9 is '0' and the table is symmetric about it. */
  function MirroredTable(): (t: seq<byte>)
    ensures |t| == 19
    ensures forall i :: 0 <= i < 19 ==> t[i] == DigitChar(if i < 9 then 9 - i else i - 9)
  {
    [57, 56, 55, 54, 53, 52, 51, 50, 49, 48, 49, 50, 51, 52, 53, 54, 55, 56, 57]
  }

  // ---------------------------------------------------------------- the reference numeral

  /** Decimal digits of `m`, most significant first; none for 0. */
  function Digits(m: nat): seq<byte> {
    if m == 0 then [] else Digits(m / 10) + [DigitChar(m % 10)]
  }

  function Abs(n: int): nat {
    if n < 0 then -n else n
  }

  /** The text the formatter emits. */
  function Text(n: int): seq<byte> {
    (if n < 0 then [MINUS] else []) + Digits(Abs(n))
  }

  predicate IsDigit(c: byte) {
    48 <= c <= 57
  }

  predicate AllDigits(s: seq<byte>) {
    forall i :: 0 <= i < |s| ==> IsDigit(s[i])
  }

  /** A decimal reader, independent of the writer. */
  function ParseDigits(s: seq<byte>): nat
    requires AllDigits(s)
  {
    if s == [] then 0 else 10 * ParseDigits(s[..|s| - 1]) + (s[|s| - 1] as int - 48)
  }

  predicate IsNumeral(s: seq<byte>) {
    if s != [] && s[0] == MINUS then AllDigits(s[1..]) else AllDigits(s)
  }

  function Parse(s: seq<byte>): int
    requires IsNumeral(s)
  {
    if s != [] && s[0] == MINUS then 0 - ParseDigits(s[1..]) else ParseDigits(s)
  }

  /** The conventional spelling: at least one digit, no leading zero except "0", no "-0". */
  predicate Canonical(s: seq<byte>) {
    && IsNumeral(s)
    && var d := if s != [] && s[0] == MINUS then s[1..] else s;
       |d| > 0 && (d[0] == 48 ==> s == [48])
  }

  lemma ParseSnoc(s: seq<byte>, d: int)
    requires AllDigits(s) && 0 <= d <= 9
    ensures AllDigits(s + [DigitChar(d)]) && ParseDigits(s + [DigitChar(d)]) == 10 * ParseDigits(s) + d
  {
    var t := s + [DigitChar(d)];
    assert t[..|t| - 1] == s;
  }

  lemma {:induction false} DigitsRoundTrip(m: nat)
    ensures AllDigits(Digits(m)) && ParseDigits(Digits(m)) == m
    ensures m > 0 ==> |Digits(m)| > 0 && Digits(m)[0] != 48
  {
    if m > 0 {
      var init := Digits(m / 10);
      DigitsRoundTrip(m / 10);
      ParseSnoc(init, m % 10);
      assert Digits(m) == init + [DigitChar(m % 10)];
      assert Digits(m)[0] == if init == [] then DigitChar(m % 10) else init[0];
    }
  }

  /** Reading back the emitted text returns the number, for every integer. */
  lemma TextRoundTrip(n: int)
    ensures IsNumeral(Text(n)) && Parse(Text(n)) == n
  {
    DigitsRoundTrip(Abs(n));
    if n < 0 {
      assert Text(n)[1..] == Digits(-n);
    } else {
      assert Text(n) == Digits(n);
    }
  }

  /** Two integers never share a text. */
  lemma TextInjective(a: int, b: int)
    requires Text(a) == Text(b)
    ensures a == b
  {
    TextRoundTrip(a);
    TextRoundTrip(b);
  }

  /** Digit strings without a leading zero are determined by their value. */
  lemma {:induction false} DigitsUnique(s: seq<byte>)
    requires AllDigits(s) && (s == [] || s[0] != 48)
    ensures s == Digits(ParseDigits(s))
    ensures s != [] ==> ParseDigits(s) > 0
  {
    if s != [] {
      var init, last := s[..|s| - 1], s[|s| - 1];
      DigitsUnique(init);
      var m := ParseDigits(s);
      assert m == 10 * ParseDigits(init) + (last as int - 48);
      assert m / 10 == ParseDigits(init) && m % 10 == last as int - 48;
      assert s == init + [last];
    }
  }

  /** The text with the digit loop turned into `do ... while (num != 0)`. */
  function RepairedText(n: int): seq<byte> {
    if n == 0 then [48] else Text(n)
  }

  function Emitted(v: Variant, n: int): seq<byte> {
    if v.AsWritten? then Text(n) else RepairedText(n)
  }

  /** In ASCII: a text starts with a minus sign exactly when the number is negative, and is
      decimal digits otherwise. */
  lemma TextIsAscii(n: int)
    ensures n < 0 <==> Text(n) != [] && Text(n)[0] == 45
    ensures forall i :: 0 <= i < |Text(n)| ==> 48 <= Text(n)[i] <= 57 || (i == 0 && Text(n)[i] == 45)
  {
    DigitsRoundTrip(Abs(n));
    assert n >= 0 ==> Text(n) == Digits(Abs(n));
  }

  /** The text as written is a canonical numeral exactly when the number is not 0; the
      repaired text always is, and still reads back as the number. */
  lemma TextCanonicalIff(n: int)
    ensures Canonical(Text(n)) <==> n != 0
    ensures n == 0 ==> Text(n) == []
    ensures Canonical(RepairedText(n)) && Parse(RepairedText(n)) == n
  {
    TextRoundTrip(n);
    DigitsRoundTrip(Abs(n));
    if n < 0 {
      assert Text(n)[1..] == Digits(-n);
    }
    assert [48 as byte][..0] == [];
  }

  /** ... and it is the only canonical numeral of that number. */
  lemma CanonicalUnique(s: seq<byte>)
    requires Canonical(s)
    ensures s == RepairedText(Parse(s))
  {
    if s[0] == MINUS {
      DigitsUnique(s[1..]);
      assert Parse(s) == 0 - ParseDigits(s[1..]) < 0;
      assert s == [MINUS] + s[1..];
    } else if s != [48] {
      DigitsUnique(s);
      assert Parse(s) == ParseDigits(s) > 0;
    }
  }

  function Pow10(k: nat): nat {
    if k == 0 then 1 else 10 * Pow10(k - 1)
  }

  lemma {:induction false} DigitsLength(m: nat, k: nat)
    requires m < Pow10(k)
    ensures |Digits(m)| <= k
  {
    if m > 0 {
      DigitsLength(m / 10, k - 1);
    }
  }

  /** Digits, sign and terminator of every 64-bit number fit the room the guard reserves. */
  lemma TextFits(n: int)
    requires InRange(n)
    ensures |Text(n)| + 1 <= 21 <= MAX_NUM_SIZE
  {
    assert Pow10(5) == 100000;
    assert Pow10(10) == 100000 * Pow10(5);
    assert Pow10(15) == 100000 * Pow10(10);
    assert Pow10(19) == 10000 * Pow10(15);
    assert Pow10(20) == 10 * Pow10(19);
    if n < 0 {
      DigitsLength(-n, 19);
    } else {
      DigitsLength(n, 20);
    }
  }

  // ---------------------------------------------------------------- the digit loop

  /** What the loop has left to emit for `num`, least significant digit first. */
  function Reversed(s: seq<byte>): (r: seq<byte>)
    ensures |r| == |s| && forall i :: 0 <= i < |s| ==> r[i] == s[|s| - 1 - i]
  {
    seq(|s|, i requires 0 <= i < |s| => s[|s| - 1 - i])
  }

  lemma ReversedConcat(a: seq<byte>, b: seq<byte>)
    ensures Reversed(a + b) == Reversed(b) + Reversed(a)
  {
  }

  /** A span mirrored element by element, with the rest left alone. */
  lemma ReversedSpan(was: seq<byte>, now: seq<byte>, start: nat, end: nat)
    requires start <= end <= |was| == |now|
    requires forall k :: start <= k < end ==> now[k] == was[start + end - 1 - k]
    requires forall k :: 0 <= k < |now| && !(start <= k < end) ==> now[k] == was[k]
    ensures now[start..end] == Reversed(was[start..end])
    ensures now[..start] == was[..start] && now[end..] == was[end..]
  {
    forall k | 0 <= k < end - start
      ensures now[start..end][k] == Reversed(was[start..end])[k]
    {
      assert now[start + k] == was[start + end - 1 - (start + k)];
    }
  }

  /** One truncating step strips exactly the last decimal digit of the magnitude, keeps the
      sign, and never leaves the range of the type: no overflowing negation is involved. */
  lemma TruncStep(num: int)
    ensures var q, r := TruncDiv(num, 10), TruncMod(num, 10);
            && -9 <= r <= 9
            && Abs(q) == Abs(num) / 10 && Abs(r) == Abs(num) % 10
            && (num > 0 ==> 0 <= q < num) && (num < 0 ==> num < q <= 0) && (num == 0 ==> q == 0)
  {
  }

  /** Emitting the last digit moves it from the part still to be printed to the printed part. */
  lemma DigitsStep(num: int, digit: byte, emitted: seq<byte>, whole: seq<byte>)
    requires digit == DigitChar(Abs(num) % 10)
    ensures num == 0 ==> digit == 48 && (emitted == [] ==> Reversed(emitted + [digit]) == [48])
    ensures num != 0 && Digits(Abs(num)) + Reversed(emitted) == whole ==>
            Digits(Abs(TruncDiv(num, 10))) + Reversed(emitted + [digit]) == whole
    ensures num != 0 ==> |Digits(Abs(num))| == |Digits(Abs(TruncDiv(num, 10)))| + 1
  {
    TruncStep(num);
    ReversedConcat(emitted, [digit]);
    assert Reversed([digit]) == [digit];
    if num != 0 {
      assert Digits(Abs(num)) == Digits(Abs(TruncDiv(num, 10))) + [digit];
      assert Digits(Abs(num)) + Reversed(emitted)
          == Digits(Abs(TruncDiv(num, 10))) + ([digit] + Reversed(emitted));
    }
  }

  lemma EmittedParts(v: Variant, n: int)
    ensures Emitted(v, n)
            == (if n < 0 then [MINUS] else []) + (if v.Repaired? && n == 0 then [48] else Digits(Abs(n)))
  {
  }

  class LogStream {
    const buffer: FixedBuffer

    constructor (capacity: nat)
      ensures fresh(buffer) && fresh(buffer.data) && buffer.Valid() && buffer.Contents() == []
      ensures buffer.data.Length == capacity
    {
      buffer := new FixedBuffer(capacity);
    }

    /** `formatInteger`: nothing at all without 32 free bytes, otherwise the text of the number. */
    method FormatInteger(v: Variant, number: int)
      requires buffer.Valid() && InRange(number)
      modifies buffer, buffer.data
      ensures buffer.Valid()
      ensures buffer.Contents() == old(buffer.Contents()) +
              (if HasRoom(buffer.data.Length, |old(buffer.Contents())|, MAX_NUM_SIZE) then Emitted(v, number) else [])
    {
      if buffer.Fits(MAX_NUM_SIZE) {
        ghost var was := buffer.Contents();
        var start := buffer.cur;
        var cur := WriteText(v, buffer.data, start, number);
        buffer.Add(cur - start);
        assert buffer.data[..cur] == was + buffer.data[start..cur];
      }
    }

    /** Digits, sign and terminator behind one another, then reversed up to the terminator. */
    static method WriteText(v: Variant, data: array<byte>, start: nat, number: int) returns (cur: nat)
      requires InRange(number) && start + MAX_NUM_SIZE < data.Length
      modifies data
      ensures start <= cur < data.Length && data[..start] == old(data[..start])
      ensures data[start..cur] == Emitted(v, number)
    {
      cur := EmitDigits(v, data, start, number);
      cur := EmitSign(data, start, cur, number);
      ghost var emitted := data[start..cur];
      EmittedParts(v, number);
      data[cur] := 0;
      assert data[start..cur] == emitted;
      ReverseInPlace(data, start, cur);
    }

    /** A minus sign behind the digits, which is in front of them once reversed. */
    static method EmitSign(data: array<byte>, start: nat, end: nat, number: int) returns (cur: nat)
      requires start <= end < data.Length
      modifies data
      ensures cur == (if number < 0 then end + 1 else end) && data[..start] == old(data[..start])
      ensures Reversed(data[start..cur]) == (if number < 0 then [MINUS] else []) + Reversed(old(data[start..end]))
    {
      cur := end;
      if number < 0 {
        ghost var digits := data[start..end];
        data[cur] := MINUS;
        cur := cur + 1;
        assert data[start..cur] == digits + [MINUS];
        ReversedConcat(digits, [MINUS]);
        assert Reversed([MINUS]) == [MINUS];
      }
    }

    /** The digit loop: it writes the digits of the magnitude, least significant first. */
    static method EmitDigits(v: Variant, data: array<byte>, start: nat, number: int) returns (cur: nat)
      requires InRange(number) && start + MAX_NUM_SIZE < data.Length
      modifies data
      ensures start <= cur <= start + 20 && data[..start] == old(data[..start])
      ensures Reversed(data[start..cur]) == if v.Repaired? && number == 0 then [48] else Digits(Abs(number))
    {
      TextFits(number);
      cur := start;
      var num, first := number, v.Repaired?;
      while num != 0 || first
        invariant InRange(num)
        invariant first ==> num == number && cur == start
        invariant start <= cur <= start + |Digits(Abs(number))| || (number == 0 && cur == start + 1)
        invariant data[..start] == old(data[..start])
        invariant v.Repaired? && number == 0 && !first ==> num == 0 && Reversed(data[start..cur]) == [48]
        invariant !(v.Repaired? && number == 0) ==> Digits(Abs(num)) + Reversed(data[start..cur]) == Digits(Abs(number))
        decreases first, Abs(num)
        modifies data
      {
        TruncStep(num);
        ghost var emitted := data[start..cur];
        data[cur] := MirroredTable()[9 + TruncMod(num, 10)];
        assert data[cur] == DigitChar(Abs(num) % 10);
        assert data[start..cur + 1] == emitted + [data[cur]];
        DigitsStep(num, data[cur], emitted, Digits(Abs(number)));
        num, first := TruncDiv(num, 10), false;
        cur := cur + 1;
      }
    }

    /** `std::reverse` on the span just written. */
    static method ReverseInPlace(data: array<byte>, start: nat, end: nat)
      requires start <= end <= data.Length
      modifies data
      ensures data[start..end] == Reversed(old(data[start..end]))
      ensures data[..start] == old(data[..start]) && data[end..] == old(data[end..])
    {
      var lo, hi := start, end;
      ghost var was := data[..];
      while lo < hi
        invariant start <= lo <= hi + 1 && hi <= end && lo - start == end - hi
        invariant forall k :: 0 <= k < data.Length && !(start <= k < lo) && !(hi <= k < end) ==> data[k] == was[k]
        invariant forall k :: start <= k < lo || hi <= k < end ==> data[k] == was[start + end - 1 - k]
        modifies data
      {
        hi := hi - 1;
        data[lo], data[hi] := data[hi], data[lo];
        lo := lo + 1;
      }
      ReversedSpan(was, data[..], start, end);
    }
  }
}
