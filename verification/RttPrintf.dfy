/** Number printing of SEGGER_RTT_printf.c: a descriptor filled in place and flushed whenever it
    is full. */
module RttPrintf {
  import opened Words
  import opened PrintText

  /** SEGGER_RTT_PRINTF_DESC. */
  class Descriptor {
    const buffer: array<char>     // pBuffer, of BufferSize characters
    var cnt: nat                  // Cnt
    var ret: int                  // ReturnValue
    var answers: seq<bool>        // whether the coming calls of SEGGER_RTT_Write take everything
    var flushed: string           // what SEGGER_RTT_Write has taken
    ghost var failed: bool        // a call has not

    ghost predicate Valid()
      reads this
    {
      buffer.Length > 0 && cnt <= buffer.Length && (ret >= 0 ==> cnt < buffer.Length) && (ret < 0 ==> failed)
    }

    /** Flushed blocks and residue. */
    ghost function Emitted(): string
      requires cnt <= buffer.Length
      reads this, buffer
    {
      flushed + buffer[..cnt]
    }

    /** The setup of SEGGER_RTT_vprintf. */
    constructor (size: nat, host: seq<bool>)
      requires size > 0
      ensures Valid() && fresh(buffer) && !failed && ret == 0 && Emitted() == "" && answers == host
    {
      buffer := new char[size](_ => ' ');
      cnt, ret, answers, flushed, failed := 0, 0, host, "", false;
    }

    /** SEGGER_RTT_Write of the whole buffer. */
    method Write() returns (all: bool)
      requires cnt == buffer.Length
      modifies this`answers, this`flushed, this`failed
      ensures all ==> flushed == old(flushed) + buffer[..cnt] && failed == old(failed)
      ensures !all ==> failed && flushed == old(flushed)
    {
      all := |answers| == 0 || answers[0];
      answers := if |answers| == 0 then [] else answers[1..];
      if all {
        flushed := flushed + buffer[..cnt];
      } else {
        failed := true;
      }
    }

    /** _StoreChar. */
    method StoreChar(c: char)
      requires Valid()
      modifies this`cnt, this`ret, this`answers, this`flushed, this`failed, buffer
      ensures Valid()
      ensures !old(failed) ==> (failed <==> ret < 0) && (failed ==> cnt == buffer.Length)
      ensures !old(failed) && !failed ==> Emitted() == old(Emitted()) + [c] && ret == old(ret) + 1
      ensures old(ret) < 0 && old(cnt) == buffer.Length ==> ret < 0
    {
      ghost var e := Emitted();
      if cnt + 1 <= buffer.Length {
        buffer[cnt] := c;
        ghost var b := buffer[..cnt];
        cnt := cnt + 1;
        ret := ret + 1;
        assert buffer[..cnt] == b + [c];
        assert flushed + (b + [c]) == (flushed + b) + [c];
      }
      if cnt == buffer.Length {
        var all := Write();
        if !all {
          ret := -1;
        } else {
          cnt := 0;
          assert flushed + buffer[..0] == flushed;
        }
      }
    }

    /** The loops that pad up to the field width; they stop at a failed write. */
    method Pad(c: char, width: nat, fieldWidth: nat) returns (rest: nat)
      requires Valid() && !failed
      modifies this`cnt, this`ret, this`answers, this`flushed, this`failed, buffer
      ensures Valid() && (failed <==> ret < 0) && (failed ==> cnt == buffer.Length)
      ensures !failed ==> Emitted() == old(Emitted()) + Repeat(c, Padding(fieldWidth, width))
      ensures !failed ==> ret == old(ret) + Padding(fieldWidth, width)
      ensures !failed ==> rest == if width < fieldWidth then width else fieldWidth
    {
      rest := fieldWidth;
      ghost var e := Emitted();
      assert e + Repeat(c, 0) == e;
      while rest != 0 && width < rest
        invariant Valid() && !failed && rest <= fieldWidth && (rest < fieldWidth ==> width <= rest)
        invariant Emitted() == e + Repeat(c, fieldWidth - rest) && ret == old(ret) + (fieldWidth - rest)
        decreases rest
      {
        rest := rest - 1;
        StoreChar(c);
        if ret < 0 {
          break;
        }
        assert Repeat(c, fieldWidth - rest - 1) + [c] == Repeat(c, fieldWidth - rest);
        assert e + (Repeat(c, fieldWidth - rest - 1) + [c]) == (e + Repeat(c, fieldWidth - rest - 1)) + [c];
      }
    }
  }

  /** The width loop of both printers. */
  method WidthOf(v: nat, base: nat, numDigits: nat) returns (width: nat)
    requires IsBase(base)
    ensures width == Count(v, base, numDigits)
  {
    var number: nat := v;
    width := 1;
    while number >= base
      invariant width > 0 && width - 1 + MinDigits(number, base) == MinDigits(v, base)
      decreases number
    {
      QuotSmaller(number, base);
      number := Quot(number, base);
      width := width + 1;
    }
    if numDigits > width {
      width := numDigits;
    }
  }

  /** The divisor loop of _PrintUnsigned: Digit becomes the weight of the first digit to print,
      and never leaves 32 bits when that weight does not. */
  method FirstWeight(v: word, base: nat, numDigits: nat) returns (digit: word)
    requires IsBase(base) && Pow(base, Count(v, base, numDigits) - 1) < WRAP
    ensures digit == Pow(base, Count(v, base, numDigits) - 1)
  {
    ghost var k := Count(v, base, numDigits);
    ghost var e := 0;
    var n := numDigits;
    digit := 1;
    while true
      invariant 0 <= e < k && digit == Pow(base, e) && n <= numDigits
      invariant n > 1 ==> e + n == numDigits
      invariant n <= 1 ==> e + 1 >= numDigits
      decreases k - e
    {
      ghost var more := n > 1 || Quot(v, digit) >= base;
      WeightTurn(v, base, e);
      if n > 1 {
        n := n - 1;
      } else if Quot(v, digit) < base {
        break;
      }
      PowMonotone(base, e + 1, k - 1);
      PowStep(base, e + 1);
      digit := digit * base;
      e := e + 1;
    }
  }

  /** The weight is high enough exactly when the digits up to it are enough. */
  lemma WeightTurn(v: nat, base: nat, e: nat)
    requires IsBase(base)
    ensures Pow(base, e) > 0 && (Quot(v, Pow(base, e)) < base <==> e + 1 >= MinDigits(v, base))
  {
    QuotBelow(v, Pow(base, e), base);
    PowStep(base, e + 1);
    MinDigitsExact(v, base, e + 1);
    hide Pow, Quot, MinDigits;
    assert Pow(base, e) * base == base * Pow(base, e);
  }

  lemma {:induction false} PowMonotone(base: nat, a: nat, b: nat)
    requires base > 0
    ensures a <= b ==> Pow(base, a) <= Pow(base, b)
    decreases b
  {
    if a < b {
      PowMonotone(base, a, b - 1);
      PowStep(base, b);
      hide Pow;
      AtLeast(base, Pow(base, b - 1));
    }
  }

  lemma AtLeast(b: nat, x: nat)
    requires b > 0
    ensures b * x >= x
  {
    if b > 1 { Times(x, 1, b); }
    assert b * x == x * b;
  }

  lemma NextWeight(base: nat, j: nat)
    requires IsBase(base) && j > 0
    ensures Pow(base, j - 1) > 0
    ensures Quot(Pow(base, j - 1), base) == if j == 1 then 0 else Pow(base, j - 2)
  {
    if j == 1 {
      QuotUnique(1, base, 0, 1);
    } else {
      PowStep(base, j - 1);
      QuotUnique(Pow(base, j - 1), base, Pow(base, j - 2), 0);
    }
  }

  lemma LeftOver(v: nat, p: nat)
    requires p > 0
    ensures v - Quot(v, p) * p == Rest(v, p)
  {
    QuotRem(v, p);
    hide Quot, Rem;
    assert Quot(v, p) * p == p * Quot(v, p);
  }

  /** The output loop of _PrintUnsigned; it stops at a failed write. */
  method OutputDigits(d: Descriptor, value: word, base: nat, weight: word, ghost k: nat)
    requires d.Valid() && !d.failed && IsBase(base) && k > 0 && weight == Pow(base, k - 1) && value < Pow(base, k)
    modifies d, d.buffer
    ensures d.Valid() && (d.failed <==> d.ret < 0) && (d.failed ==> d.cnt == d.buffer.Length)
    ensures !d.failed ==> d.Emitted() == old(d.Emitted()) + Digits(value, base, k) && d.ret == old(d.ret) + k
  {
    ghost var e := d.Emitted();
    hide Digits, Pow, Quot, DigitChar, Rest, PrintText.Rem;
    var v: nat, digit: nat := value, weight;
    ghost var done, j := "", k;
    assert e + "" == e;
    while true
      invariant d.Valid() && !d.failed && 0 < j <= k && digit == Pow(base, j - 1) && v < Pow(base, j)
      invariant d.Emitted() == e + done && done + Digits(v, base, j) == Digits(value, base, k)
      invariant d.ret == old(d.ret) + (k - j)
      decreases j
    {
      NextWeight(base, j);
      DigitsHead(v, base, j);
      LeftOver(v, digit);
      var div := Quot(v, digit);
      v := v - div * digit;
      d.StoreChar(DigitChar(div));
      if d.ret < 0 {
        break;
      }
      Associate(e, done, [DigitChar(div)], Digits(v, base, j - 1));
      done := done + [DigitChar(div)];
      digit := Quot(digit, base);
      j := j - 1;
      if digit == 0 {
        NoDigits(v, base, j, k, done, value);
        break;
      }
    }
  }

  lemma Associate(e: string, a: string, b: string, c: string)
    ensures (e + a) + b == e + (a + b) && (a + b) + c == a + (b + c)
  {
  }

  lemma NoDigits(v: nat, base: nat, j: nat, k: nat, done: string, value: nat)
    requires IsBase(base) && (j > 0 ==> Pow(base, j - 1) == 0) && done + Digits(v, base, j) == Digits(value, base, k)
    ensures j == 0 && done == Digits(value, base, k)
  {
    assert done + [] == done;
  }

  /** _PrintUnsigned: unless a write fails, exactly the text, and the return value counts it. */
  method PrintUnsigned(d: Descriptor, v: word, base: nat, numDigits: nat, fieldWidth: nat, f: Flags)
    requires d.Valid() && !d.failed && IsBase(base) && Pow(base, Count(v, base, numDigits) - 1) < WRAP
    modifies d, d.buffer
    ensures d.Valid() && (d.failed <==> d.ret < 0)
    ensures var text := UnsignedText(v, base, numDigits, fieldWidth, f);
      !d.failed ==> d.Emitted() == old(d.Emitted()) + text && d.ret == old(d.ret) + |text|
  {
    ghost var e := d.Emitted();
    DigitsFit(v, base, numDigits);
    hide Digits, Pow, Count, MinDigits, Parse;
    var width := WidthOf(v, base, numDigits);
    var rest := fieldWidth;
    ghost var lead := "";
    assert e + lead == e;
    if !f.left {
      var c := if f.zero && numDigits == 0 then '0' else ' ';
      rest := d.Pad(c, width, fieldWidth);
      lead := Repeat(c, Padding(fieldWidth, width));
    }
    if d.ret >= 0 {
      var weight := FirstWeight(v, base, numDigits);
      OutputDigits(d, v, base, weight, width);
      ghost var digits := Digits(v, base, width);
      Associate(e, lead, digits, "");
      if f.left {
        rest := PadAfter(d, width, rest);
        Associate(e, lead + digits, Repeat(' ', Padding(fieldWidth, width)), "");
      }
    }
  }

  /** The trailing blanks; after a failed write one more is tried, and lost. */
  method PadAfter(d: Descriptor, width: nat, fieldWidth: nat) returns (rest: nat)
    requires d.Valid() && (d.failed <==> d.ret < 0) && (d.failed ==> d.cnt == d.buffer.Length)
    modifies d, d.buffer
    ensures d.Valid() && (d.failed <==> d.ret < 0) && (old(d.failed) ==> d.failed)
    ensures !d.failed ==> d.Emitted() == old(d.Emitted()) + Repeat(' ', Padding(fieldWidth, width))
    ensures !d.failed ==> d.ret == old(d.ret) + Padding(fieldWidth, width)
  {
    if d.ret < 0 {
      rest := fieldWidth;
      if rest != 0 && width < rest {
        rest := rest - 1;
        d.StoreChar(' ');
      }
    } else {
      rest := d.Pad(' ', width, fieldWidth);
    }
  }

  /** The sign of _PrintInt. */
  method PutSign(d: Descriptor, v: int, f: Flags)
    requires d.Valid() && !d.failed
    modifies d, d.buffer
    ensures d.Valid() && (d.failed <==> d.ret < 0)
    ensures !d.failed ==> d.Emitted() == old(d.Emitted()) + SignText(v, f) && d.ret == old(d.ret) + |SignText(v, f)|
  {
    if v < 0 {
      d.StoreChar('-');
    } else if f.sign {
      d.StoreChar('+');
    } else {
      assert d.Emitted() + "" == d.Emitted();
    }
  }

  /** Everything _PrintInt prints before the digits; the width still to fill is what is left. */
  method PrintLead(d: Descriptor, v: int, width: nat, numDigits: nat, fieldWidth: nat, f: Flags) returns (rest: nat)
    requires d.Valid() && !d.failed
    modifies d, d.buffer
    ensures d.Valid() && (d.failed <==> d.ret < 0)
    ensures var pad := Padding(fieldWidth, width);
      !d.failed ==>
        && d.Emitted() == old(d.Emitted()) + Lead(v, numDigits, pad, f)
        && d.ret == old(d.ret) + |Lead(v, numDigits, pad, f)|
        && rest == if !f.left && width < fieldWidth then width else fieldWidth
  {
    ghost var e := d.Emitted();
    ghost var pad := Padding(fieldWidth, width);
    ghost var sign := SignText(v, f);
    rest := fieldWidth;
    if (!f.zero || numDigits != 0) && !f.left {
      rest := d.Pad(' ', width, fieldWidth);
      if d.ret >= 0 {
        PutSign(d, v, f);
        Associate(e, Repeat(' ', pad), sign, "");
      }
    } else {
      PutSign(d, v, f);
      if d.ret >= 0 && !f.left {
        rest := d.Pad('0', width, fieldWidth);
        Associate(e, sign, Repeat('0', pad), "");
      }
    }
  }

  /** Blanks, sign and zeros. */
  function Lead(v: int, numDigits: nat, pad: nat, f: Flags): string {
    if f.left then SignText(v, f)
    else if f.zero && numDigits == 0 then SignText(v, f) + Repeat('0', pad)
    else Repeat(' ', pad) + SignText(v, f)
  }

  /** The field width left for the digits once a sign is to be printed. */
  function WidthLeft(v: int, fieldWidth: nat, f: Flags): nat {
    if fieldWidth > 0 && (v < 0 || f.sign) then fieldWidth - 1 else fieldWidth
  }

  /** The text of an int is its lead and the unsigned text of its magnitude in what is left. */
  lemma IntTextIs(v: int, base: nat, numDigits: nat, fieldWidth: nat, f: Flags)
    requires IsBase(base)
    ensures var w := Count(Magnitude(v), base, numDigits);
      var left := WidthLeft(v, fieldWidth, f);
      var rest := if !f.left && w < left then w else left;
      IntText(v, base, numDigits, fieldWidth, f) ==
        Lead(v, numDigits, Padding(left, w), f) + UnsignedText(Magnitude(v), base, numDigits, rest, f)
  {
    var w := Count(Magnitude(v), base, numDigits);
    var left := WidthLeft(v, fieldWidth, f);
    var pad := Padding(left, w);
    var digits := Digits(Magnitude(v), base, w);
    assert Padding(fieldWidth, |SignText(v, f)| + w) == pad;
    hide Digits, Count;
    if f.left {
      assert SignText(v, f) + ("" + digits + Repeat(' ', pad)) == SignText(v, f) + digits + Repeat(' ', pad);
    } else {
      assert Padding(if w < left then w else left, w) == 0;
      assert Repeat(' ', 0) + digits + "" == digits && Repeat('0', 0) + digits + "" == digits;
    }
  }

  /** _PrintInt, for an int above INT_MIN. */
  method PrintInt(d: Descriptor, v: int, base: nat, numDigits: nat, fieldWidth: nat, f: Flags)
    requires d.Valid() && !d.failed && IsBase(base) && -0x8000_0000 < v < 0x8000_0000
    requires Pow(base, Count(Magnitude(v), base, numDigits) - 1) < WRAP
    modifies d, d.buffer
    ensures d.Valid() && (d.failed <==> d.ret < 0)
    ensures var text := IntText(v, base, numDigits, fieldWidth, f);
      !d.failed ==> d.Emitted() == old(d.Emitted()) + text && d.ret == old(d.ret) + |text|
  {
    ghost var e := d.Emitted();
    IntTextIs(v, base, numDigits, fieldWidth, f);
    var magnitude := if v < 0 then -v else v;
    hide IntText, UnsignedText, Lead, Count, Pow, Padding, SignText;
    var width := WidthOf(magnitude, base, numDigits);
    var left := if fieldWidth > 0 && (v < 0 || f.sign) then fieldWidth - 1 else fieldWidth;
    var rest := PrintLead(d, v, width, numDigits, left, f);
    if d.ret >= 0 {
      ghost var lead := Lead(v, numDigits, Padding(left, width), f);
      PrintUnsigned(d, magnitude, base, numDigits, rest, f);
      Associate(e, lead, UnsignedText(magnitude, base, numDigits, rest, f), "");
    }
  }

  /** The weights the two bases in use can reach: base 10 up to precision 10, base 16 up to 8. */
  lemma WeightsFit(v: word, numDigits: nat)
    ensures numDigits <= 10 ==> Pow(10, Count(v, 10, numDigits) - 1) < WRAP
    ensures numDigits <= 8 ==> Pow(16, Count(v, 16, numDigits) - 1) < WRAP
  {
    TenPowers();
    MinDigitsExact(v, 10, 10);
    MinDigitsExact(v, 16, 8);
    hide Pow, MinDigits;
    PowMonotone(10, Count(v, 10, numDigits) - 1, 9);
    PowMonotone(16, Count(v, 16, numDigits) - 1, 7);
  }

  lemma TenPowers()
    ensures Pow(10, 9) == 1_000_000_000 && Pow(10, 10) == 10_000_000_000
    ensures Pow(16, 7) == 0x1000_0000 && Pow(16, 8) == WRAP
  {
    assert Pow(10, 3) == 1000 && Pow(16, 3) == 0x1000;
    assert Pow(10, 6) == 1_000_000 && Pow(16, 6) == 0x100_0000;
    assert Pow(10, 9) == 1_000_000_000;
  }
}
