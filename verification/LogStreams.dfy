/** The fixed-size log buffer and the integer formatting that writes straight into it. */
module LogStreams {
  import opened Numerals

  const SMALL_BUFFER: nat := 4000
  const LARGE_BUFFER: nat := 4000 * 1000
  const MAX_NUMERIC_SIZE: nat := 48

  /** zero[i] is the digit of |i| for -9 <= i <= 9: the table runs both ways from ZERO. */
  const DIGITS := "9876543210123456789"
  const ZERO := 9

  lemma DigitTable(lsd: int)
    requires -10 < lsd < 10
    ensures 0 <= ZERO + lsd < |DIGITS| && DIGITS[ZERO + lsd] == DigitChar(Magnitude(lsd))
  {
  }

  class FixedBuffer {
    const size: nat
    const data: array<char>
    var cur: nat

    ghost predicate Valid()
      reads this
    {
      data.Length == size && cur <= size
    }

    ghost function Text(): string
      requires Valid()
      reads this, data
    {
      data[..cur]
    }

    constructor (size: nat)
      ensures Valid() && fresh(data) && this.size == size && cur == 0
    {
      this.size := size;
      data := new char[size];
      cur := 0;
    }

    function Avail(): int
      reads this
    {
      size - cur
    }

    /** Copies the line only when it leaves at least one byte free; otherwise drops it whole. */
    method Append(line: string)
      requires Valid()
      modifies this, data
      ensures Valid()
      ensures Text() == if |line| < old(Avail()) then old(Text()) + line else old(Text())
    {
      if Avail() > |line| {
        forall k | 0 <= k < |line| {
          data[cur + k] := line[k];
        }
        cur := cur + |line|;
      }
    }

    method Reset()
      requires Valid()
      modifies this
      ensures Valid() && Text() == ""
    {
      cur := 0;
    }

    /** Zeroes the storage without moving the cursor: the length of the text is unchanged. */
    method ResetData()
      requires Valid()
      modifies data
      ensures Valid() && |Text()| == old(|Text()|)
      ensures forall k :: 0 <= k < data.Length ==> data[k] == 0 as char
    {
      forall k | 0 <= k < data.Length {
        data[k] := 0 as char;
      }
    }

    /** Moves the cursor over bytes the caller has already written in place. */
    method Add(len: nat)
      requires Valid() && cur + len <= size
      modifies this
      ensures Valid() && cur == old(cur) + len && Text() == old(data[..cur + len])
    {
      cur := cur + len;
    }
  }

  function Reverse(s: string): string {
    seq(|s|, k requires 0 <= k < |s| => s[|s| - 1 - k])
  }

  lemma ReverseSnoc(s: string, c: char)
    ensures Reverse(s + [c]) == [c] + Reverse(s)
  {
  }

  /** std::reverse over buf[lo..hi]. */
  method ReverseRange(buf: array<char>, lo: nat, hi: nat)
    requires lo <= hi <= buf.Length
    modifies buf
    ensures buf[lo..hi] == Reverse(old(buf[lo..hi]))
    ensures forall k :: 0 <= k < lo || hi <= k < buf.Length ==> buf[k] == old(buf[k])
  {
    var i, j := lo, hi;
    while i + 1 < j
      invariant lo <= i <= j + 1 && j <= hi && i + j == lo + hi
      invariant forall k :: 0 <= k < lo || i <= k < j || hi <= k < buf.Length ==> buf[k] == old(buf[k])
      invariant forall k :: lo <= k < i || j <= k < hi ==> buf[k] == old(buf[lo + hi - 1 - k])
    {
      j := j - 1;
      buf[i], buf[j] := buf[j], buf[i];
      i := i + 1;
    }
  }

  /** One round of a digit loop: the low digit moves from the number to the text so far. */
  lemma DigitRound(n: nat, base: nat, written: string, c: char)
    requires IsBase(base) && c == DigitChar(Rem(n, base))
    ensures Numeral(n, base) + Reverse(written) ==
            (if Quot(n, base) == 0 then "" else Numeral(Quot(n, base), base)) + Reverse(written + [c])
  {
    ReverseSnoc(written, c);
    if n >= base {
      assert Numeral(n, base) + Reverse(written) == Numeral(Quot(n, base), base) + ([c] + Reverse(written));
    }
  }

  /** Text still to come while `n` is left: nothing once the loop has reached zero. */
  ghost function Rest(n: nat, base: nat, more: bool): string
    requires IsBase(base)
  {
    if more then Numeral(n, base) else ""
  }

  /** The common tail of both loops: terminate, then turn the digits round. */
  method Finish(buf: array<char>, start: nat, p: nat) returns (len: nat)
    requires start <= p < buf.Length
    modifies buf
    ensures start + len == p
    ensures buf[start..p] == Reverse(old(buf[start..p])) && buf[p] == 0 as char
    ensures forall k :: 0 <= k < start || p < k < buf.Length ==> buf[k] == old(buf[k])
  {
    buf[p] := 0 as char;
    assert buf[start..p] == old(buf[start..p]);
    ReverseRange(buf, start, p);
    len := p - start;
  }

  /** The digit loop of the signed conversion: low digit first, truncated division, so that
      the minimum of a signed type needs no negation. */
  method PutDigits(buf: array<char>, start: nat, value: int) returns (p: nat)
    requires start + |Numeral(Magnitude(value), 10)| <= buf.Length
    modifies buf
    ensures p == start + |Numeral(Magnitude(value), 10)|
    ensures Reverse(buf[start..p]) == Numeral(Magnitude(value), 10)
    ensures forall k :: 0 <= k < start || p <= k < buf.Length ==> buf[k] == old(buf[k])
  {
    var i := value;
    p := start;
    ghost var numeral := Numeral(Magnitude(value), 10);
    ghost var written := "";
    var more := true;
    while more
      invariant start <= p <= start + |numeral| && buf[start..p] == written
      invariant numeral == Rest(Magnitude(i), 10, more) + Reverse(written)
      invariant !more ==> i == 0
      invariant forall k :: 0 <= k < start || start + |numeral| <= k < buf.Length ==> buf[k] == old(buf[k])
      decreases more, Magnitude(i)
    {
      var lsd := TruncMod(i, 10);
      TruncStep(i);
      NumeralRoundTrip(Magnitude(i), 10);
      DigitTable(lsd);
      var c := DIGITS[ZERO + lsd];
      DigitRound(Magnitude(i), 10, written, c);
      buf[p] := c;
      written := written + [c];
      p := p + 1;
      i := TruncDiv(i, 10);
      more := i != 0;
    }
  }

  /** The sign goes last, since the whole is about to be turned round. */
  method PutSigned(buf: array<char>, start: nat, value: int, ghost text: string) returns (p: nat)
    requires text == Decimal(value) && start + |text| <= buf.Length
    modifies buf
    ensures p == start + |text| && Reverse(buf[start..p]) == text
    ensures forall k :: 0 <= k < start || p <= k < buf.Length ==> buf[k] == old(buf[k])
  {
    p := PutDigits(buf, start, value);
    ghost var digits := buf[start..p];
    SignLast(digits, value, text);
    if value < 0 {
      buf[p] := '-';
      p := p + 1;
      assert buf[start..p] == digits + ['-'];
    }
  }

  /** Writes the canonical text and its terminator at `start` and nothing else. Covers every
      signed and unsigned type up to 64 bits, minima included. */
  method Convert(buf: array<char>, start: nat, value: int, ghost text: string) returns (len: nat)
    requires text == Decimal(value) && start + |text| < buf.Length
    modifies buf
    ensures len == |text|
    ensures buf[start..start + len] == text && buf[start + len] == 0 as char
    ensures forall k :: 0 <= k < start || start + len < k < buf.Length ==> buf[k] == old(buf[k])
  {
    var p := PutSigned(buf, start, value, text);
    len := Finish(buf, start, p);
  }

  lemma SignLast(digits: string, value: int, text: string)
    requires Reverse(digits) == Numeral(Magnitude(value), 10) && text == Decimal(value)
    ensures text == Reverse(if value < 0 then digits + ['-'] else digits)
    ensures |text| == |digits| + if value < 0 then 1 else 0
  {
    ReverseSnoc(digits, '-');
  }

  method ConvertHex(buf: array<char>, start: nat, value: nat, ghost text: string) returns (len: nat)
    requires text == Numeral(value, 16) && start + |text| < buf.Length
    modifies buf
    ensures len == |text|
    ensures buf[start..start + len] == text && buf[start + len] == 0 as char
    ensures forall k :: 0 <= k < start || start + len < k < buf.Length ==> buf[k] == old(buf[k])
  {
    var i := value;
    var p := start;
    ghost var written := "";
    var more := true;
    while more
      invariant start <= p <= start + |text| && buf[start..p] == written
      invariant text == Rest(i, 16, more) + Reverse(written)
      invariant !more ==> i == 0
      invariant forall k :: 0 <= k < start || start + |text| <= k < buf.Length ==> buf[k] == old(buf[k])
      decreases more, i
    {
      var lsd := i % 16;
      NumeralRoundTrip(i, 16);
      var c := DIGITS_HEX[lsd];
      DigitRound(i, 16, written, c);
      buf[p] := c;
      written := written + [c];
      p := p + 1;
      i := i / 16;
      more := i != 0;
    }
    len := Finish(buf, start, p);
  }

  class LogStream {
    const buffer: FixedBuffer

    ghost predicate Valid()
      reads this, buffer
    {
      buffer.Valid() && buffer.size == SMALL_BUFFER
    }

    constructor ()
      ensures Valid() && fresh(buffer) && fresh(buffer.data) && buffer.Text() == ""
    {
      buffer := new FixedBuffer(SMALL_BUFFER);
    }

    /** The 48-byte guard is enough for every 64-bit value: text and terminator fit, so the
        number is written whole, or not at all. */
    method FormatInteger(val: int)
      requires Valid() && -0x8000_0000_0000_0000 <= val < 0x1_0000_0000_0000_0000
      modifies buffer, buffer.data
      ensures Valid()
      ensures buffer.Text() ==
              if old(buffer.Avail()) >= MAX_NUMERIC_SIZE then old(buffer.Text()) + Decimal(val)
              else old(buffer.Text())
    {
      if buffer.Avail() >= MAX_NUMERIC_SIZE {
        DecimalWidth(val);
        ghost var before, text := buffer.Text(), Decimal(val);
        var len := Convert(buffer.data, buffer.cur, val, text);
        assert buffer.data[..buffer.cur + len] == before + text;
        buffer.Add(len);
      }
    }

    method FormatPointer(v: nat)
      requires Valid() && v < 0x1_0000_0000_0000_0000
      modifies buffer, buffer.data
      ensures Valid()
      ensures buffer.Text() ==
              if old(buffer.Avail()) >= MAX_NUMERIC_SIZE then old(buffer.Text()) + "0x" + Numeral(v, 16)
              else old(buffer.Text())
    {
      if buffer.Avail() >= MAX_NUMERIC_SIZE {
        HexWidth(v);
        ghost var before, text := buffer.Text(), Numeral(v, 16);
        var at := buffer.cur;
        buffer.data[at] := '0';
        buffer.data[at + 1] := 'x';
        var len := ConvertHex(buffer.data, at + 2, v, text);
        assert buffer.data[..at + 2 + len] == before + "0x" + text;
        buffer.Add(len + 2);
      }
    }
  }

  /** Decimal text of any 64-bit value, signed or unsigned, takes at most 20 characters. */
  lemma DecimalWidth(v: int)
    requires -0x8000_0000_0000_0000 <= v < 0x1_0000_0000_0000_0000
    ensures |Decimal(v)| <= 20
  {
    PowersOfTen();
    if v < 0 {
      NumeralLength(-v, 10, 19);
    } else {
      NumeralLength(v, 10, 20);
    }
  }

  lemma HexWidth(v: nat)
    requires v < 0x1_0000_0000_0000_0000
    ensures |Numeral(v, 16)| <= 16
  {
    PowersOfSixteen();
    NumeralLength(v, 16, 16);
  }

  lemma PowersOfTen()
    ensures Power(10, 19) == 10000000000000000000
    ensures Power(10, 20) == 100000000000000000000
  {
    assert Power(10, 4) == 10000;
    assert Power(10, 8) == 100000000;
    assert Power(10, 12) == 1000000000000;
    assert Power(10, 16) == 10000000000000000;
  }

  lemma PowersOfSixteen()
    ensures Power(16, 16) == 0x1_0000_0000_0000_0000
  {
    assert Power(16, 4) == 0x1_0000;
    assert Power(16, 8) == 0x1_0000_0000;
    assert Power(16, 12) == 0x1_0000_0000_0000;
  }
}
