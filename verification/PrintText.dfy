/** The text of a number as SEGGER_RTT_printf.c lays it out, and reading it back. */
module PrintText {
  import opened Rings

  datatype Flags = Flags(left: bool, zero: bool, sign: bool)

  predicate IsBase(b: nat) {
    2 <= b <= 16
  }

  /** _aV2C. */
  function DigitChar(d: nat): (c: char)
    requires d < 16
    ensures c != ' ' && c != '-' && c != '+'
  {
    "0123456789ABCDEF"[d]
  }

  function DigitValue(c: char): (d: nat) {
    if '0' <= c <= '9' then c as int - '0' as int
    else if 'A' <= c <= 'F' then c as int - 'A' as int + 10
    else 0
  }

  lemma DigitRoundTrip(d: nat)
    requires d < 16
    ensures DigitValue(DigitChar(d)) == d
  {
  }

  function Pow(b: nat, k: nat): (p: nat)
    ensures b > 0 ==> p > 0
  {
    if k == 0 then 1 else b * Pow(b, k - 1)
  }

  function Quot(v: nat, b: nat): nat
    requires b > 0
  {
    v / b
  }

  function Rem(v: nat, b: nat): nat
    requires b > 0
  {
    v % b
  }

  /** The number of digits v needs: the loop that divides by the base. */
  function MinDigits(v: nat, b: nat): (k: nat)
    requires IsBase(b)
    ensures k > 0
  {
    if v < b then 1 else QuotSmaller(v, b); 1 + MinDigits(Quot(v, b), b)
  }

  lemma QuotSmaller(v: nat, b: nat)
    requires b > 1 && v > 0
    ensures Quot(v, b) < v
  {
    QuotBelow(v, b, v);
    hide Quot;
    Times(v, 1, b);
    assert v * b == b * v;
  }

  lemma RemSmall(v: nat, b: nat)
    requires b > 0
    ensures Rem(v, b) < b
  {
  }

  function Count(v: nat, b: nat, numDigits: nat): (k: nat)
    requires IsBase(b)
    ensures k > 0 && k >= numDigits && k >= MinDigits(v, b)
  {
    if numDigits > MinDigits(v, b) then numDigits else MinDigits(v, b)
  }

  /** The last k digits of v, most significant first. */
  function Digits(v: nat, b: nat, k: nat): (s: string)
    requires IsBase(b)
    ensures |s| == k
    ensures forall i :: 0 <= i < k ==> s[i] != ' ' && s[i] != '-' && s[i] != '+'
  {
    if k == 0 then [] else RemSmall(v, b); Digits(Quot(v, b), b, k - 1) + [DigitChar(Rem(v, b))]
  }

  /** Reading digits, most significant first. */
  function Parse(s: string, b: nat): nat {
    if s == [] then 0 else Parse(s[..|s| - 1], b) * b + DigitValue(s[|s| - 1])
  }

  // ----- arithmetic

  lemma QuotRem(v: nat, b: nat)
    requires b > 0
    ensures v == b * Quot(v, b) + Rem(v, b) && Rem(v, b) < b
  {
  }

  /** More than n times b is at least n + 1 times b. */
  lemma Times(b: nat, x: nat, y: nat)
    requires x < y
    ensures b * x + b <= b * y
  {
    assert b * y == b * x + b * (y - x);
    MulBound(b, y - x);
  }

  lemma QuotUnique(v: nat, b: nat, q: nat, r: nat)
    requires v == b * q + r && r < b
    ensures Quot(v, b) == q && Rem(v, b) == r
  {
    QuotRem(v, b);
    hide Quot, Rem;
    if Quot(v, b) < q { Times(b, Quot(v, b), q); }
    if q < Quot(v, b) { Times(b, q, Quot(v, b)); }
  }

  /** v / b is below p exactly when v is below b times p. */
  lemma QuotBelow(v: nat, b: nat, p: nat)
    requires b > 0
    ensures Quot(v, b) < p <==> v < b * p
  {
    QuotRem(v, b);
    hide Quot, Rem;
    if Quot(v, b) < p { Times(b, Quot(v, b), p); }
    if p < Quot(v, b) { Times(b, p, Quot(v, b)); }
  }

  lemma PowStep(b: nat, k: nat)
    requires k > 0
    ensures Pow(b, k) == b * Pow(b, k - 1)
    ensures Pow(b, 0) == 1
  {
  }

  /** The digit count is the right one: v fits in it and in no smaller one. */
  lemma {:induction false} MinDigitsExact(v: nat, b: nat, k: nat)
    requires IsBase(b) && k > 0
    ensures v < Pow(b, k) <==> k >= MinDigits(v, b)
    decreases k
  {
    hide Pow, Quot;
    PowStep(b, k);
    if k > 1 {
      QuotBelow(v, b, Pow(b, k - 1));
      MinDigitsExact(Quot(v, b), b, k - 1);
      if v < b { QuotUnique(v, b, 0, v); }
      hide *;
    }
  }

  lemma ParseLast(s: string, c: char, b: nat)
    ensures Parse(s + [c], b) == Parse(s, b) * b + DigitValue(c)
  {
    assert (s + [c])[..|s|] == s;
  }

  /** Printed with enough digits, a number reads back as itself. */
  lemma {:induction false} DigitsParse(v: nat, b: nat, k: nat)
    requires IsBase(b) && v < Pow(b, k)
    ensures Parse(Digits(v, b, k), b) == v
    decreases k
  {
    hide Quot, Rem, DigitValue, DigitChar;
    if k > 0 {
      var q, r := Quot(v, b), Rem(v, b);
      PowStep(b, k);
      QuotBelow(v, b, Pow(b, k - 1));
      QuotRem(v, b);
      DigitRoundTrip(r);
      ParseLast(Digits(q, b, k - 1), DigitChar(r), b);
      hide Pow, Parse;
      DigitsParse(q, b, k - 1);
      assert q * b == b * q;
    }
  }

  /** v taken apart at both ends: the leading digit q, the last digit r0, and r1 between. */
  lemma BothEnds(v: nat, b: nat, p2: nat) returns (q: nat, r1: nat, r0: nat)
    requires b > 1 && p2 > 0 && v < b * (b * p2)
    ensures q == Quot(v, b * p2) < b && v == (b * p2) * q + (b * r1 + r0) && r1 < p2 && r0 < b
  {
    hide Quot, Rem;
    var p := b * p2;
    Positive(b, p2);
    QuotRem(v, p);
    QuotBelow(v, p, b);
    assert p * b == b * p;
    q := Quot(v, p);
    var r := Rem(v, p);
    QuotRem(r, b);
    QuotBelow(r, b, p2);
    r1, r0 := Quot(r, b), Rem(r, b);
  }

  lemma Positive(a: nat, b: nat)
    requires a > 0 && b > 0
    ensures a * b > 0
  {
  }

  lemma Regroup(b: nat, p2: nat, q: nat, r1: nat)
    ensures (b * p2) * q + b * r1 == b * (p2 * q + r1)
  {
  }

  /** What remains after the leading digit. */
  function Rest(v: nat, p: nat): (r: nat)
    requires p > 0
    ensures r < p
  {
    RemSmall(v, p);
    Rem(v, p)
  }

  /** The output loop: the leading digit, then the digits of what is left. */
  lemma {:induction false} DigitsHead(v: nat, b: nat, k: nat)
    requires IsBase(b) && k > 0 && v < Pow(b, k)
    ensures var p := Pow(b, k - 1);
      Quot(v, p) < b && Digits(v, b, k) == [DigitChar(Quot(v, p))] + Digits(Rest(v, p), b, k - 1)
    decreases k
  {
    hide Quot, Rem, DigitChar, Pow, Digits;
    PowStep(b, k);
    if k == 1 {
      OneDigit(v, b);
    } else {
      PowStep(b, k - 1);
      var p2 := Pow(b, k - 2);
      var q, r1, r0 := BothEnds(v, b, p2);
      HeadParts(v, b, p2, q, r1, r0);
      QuotBelow(v, b, b * p2);
      DigitsHead(Quot(v, b), b, k - 1);
      TwoEnds(v, b, k, q, r1, r0);
    }
  }

  lemma OneDigit(v: nat, b: nat)
    requires IsBase(b) && v < b
    ensures Quot(v, 1) == v && Digits(v, b, 1) == [DigitChar(Quot(v, 1))] + Digits(Rest(v, 1), b, 0)
  {
    hide Quot, Rem, DigitChar;
    QuotUnique(v, 1, v, 0);
    QuotUnique(v, b, 0, v);
    assert Digits(v, b, 1) == Digits(0, b, 0) + [DigitChar(v)];
    assert Digits(0, b, 0) == [] && Digits(Rest(v, 1), b, 0) == [];
  }

  lemma HeadParts(v: nat, b: nat, p2: nat, q: nat, r1: nat, r0: nat)
    requires b > 1 && p2 > 0 && v == (b * p2) * q + (b * r1 + r0) && r1 < p2 && r0 < b
    ensures Quot(v, b) == p2 * q + r1 && Rem(v, b) == r0
    ensures Quot(Quot(v, b), p2) == q && Rem(Quot(v, b), p2) == r1
    ensures b * p2 > 0 && Quot(v, b * p2) == q && Rem(v, b * p2) == b * r1 + r0
    ensures Quot(b * r1 + r0, b) == r1 && Rem(b * r1 + r0, b) == r0
  {
    hide Quot, Rem;
    Regroup(b, p2, q, r1);
    QuotUnique(v, b, p2 * q + r1, r0);
    QuotUnique(p2 * q + r1, p2, q, r1);
    Times(b, r1, p2);
    QuotUnique(v, b * p2, q, b * r1 + r0);
    QuotUnique(b * r1 + r0, b, r1, r0);
  }

  lemma TwoEnds(v: nat, b: nat, k: nat, q: nat, r1: nat, r0: nat)
    requires IsBase(b) && k >= 2 && q < b && r0 < b && Rem(v, b) == r0
    requires Digits(Quot(v, b), b, k - 1) == [DigitChar(q)] + Digits(r1, b, k - 2)
    requires Quot(b * r1 + r0, b) == r1 && Rem(b * r1 + r0, b) == r0
    ensures Digits(v, b, k) == [DigitChar(q)] + Digits(b * r1 + r0, b, k - 1)
  {
    hide DigitChar, Quot, Rem;
    assert Digits(v, b, k) == ([DigitChar(q)] + Digits(r1, b, k - 2)) + [DigitChar(r0)];
    assert Digits(b * r1 + r0, b, k - 1) == Digits(r1, b, k - 2) + [DigitChar(r0)];
  }

  // ----- the whole text

  function Repeat(c: char, n: nat): (s: string)
    ensures |s| == n && forall i :: 0 <= i < n ==> s[i] == c
  {
    seq(n, _ => c)
  }

  function Padding(fieldWidth: nat, width: nat): nat {
    if fieldWidth > width then fieldWidth - width else 0
  }

  /** _PrintUnsigned. */
  function UnsignedText(v: nat, b: nat, numDigits: nat, fieldWidth: nat, f: Flags): string
    requires IsBase(b)
  {
    var w := Count(v, b, numDigits);
    var pad := Padding(fieldWidth, w);
    (if f.left then "" else Repeat(if f.zero && numDigits == 0 then '0' else ' ', pad))
    + Digits(v, b, w) + (if f.left then Repeat(' ', pad) else "")
  }

  function Magnitude(v: int): nat {
    if v < 0 then -v else v
  }

  function SignText(v: int, f: Flags): string {
    if v < 0 then "-" else if f.sign then "+" else ""
  }

  /** _PrintInt. */
  function IntText(v: int, b: nat, numDigits: nat, fieldWidth: nat, f: Flags): string
    requires IsBase(b)
  {
    var w := Count(Magnitude(v), b, numDigits);
    var sign := SignText(v, f);
    var pad := Padding(fieldWidth, |sign| + w);
    var digits := Digits(Magnitude(v), b, w);
    if f.left then sign + digits + Repeat(' ', pad)
    else if f.zero && numDigits == 0 then sign + Repeat('0', pad) + digits
    else Repeat(' ', pad) + sign + digits
  }

  function Wider(a: nat, b: nat): nat {
    if a > b then a else b
  }

  /** As wide as the field, or as the sign and the digits if that is more. */
  lemma TextWidth(v: int, b: nat, numDigits: nat, fieldWidth: nat, f: Flags)
    requires IsBase(b)
    ensures |IntText(v, b, numDigits, fieldWidth, f)| ==
      Wider(fieldWidth, |SignText(v, f)| + Count(Magnitude(v), b, numDigits))
    ensures v >= 0 ==> |UnsignedText(v, b, numDigits, fieldWidth, f)| == Wider(fieldWidth, Count(v, b, numDigits))
  {
  }

  // ----- reading it back

  /** Without the blanks on either side. */
  function Trim(s: string): string {
    if s == [] then []
    else if s[0] == ' ' then Trim(s[1..])
    else if s[|s| - 1] == ' ' then Trim(s[..|s| - 1])
    else s
  }

  function ReadInt(s: string, b: nat): int {
    var t := Trim(s);
    if t != [] && t[0] == '-' then (0 as int) - Parse(t[1..], b)
    else if t != [] && t[0] == '+' then Parse(t[1..], b)
    else Parse(t, b)
  }

  lemma {:induction false} TrimBoth(before: nat, body: string, after: nat)
    requires body != [] && body[0] != ' ' && body[|body| - 1] != ' '
    ensures Trim(Repeat(' ', before) + body + Repeat(' ', after)) == body
    decreases before + after
  {
    var s := Repeat(' ', before) + body + Repeat(' ', after);
    if before > 0 {
      TrimBoth(before - 1, body, after);
      assert s[0] == ' ' && s[1..] == Repeat(' ', before - 1) + body + Repeat(' ', after);
    } else if after > 0 {
      TrimBoth(0, body, after - 1);
      assert s[0] == body[0];
      assert s[|s| - 1] == ' ' && s[..|s| - 1] == Repeat(' ', 0) + body + Repeat(' ', after - 1);
    } else {
      assert s == body;
    }
  }

  /** Leading zeros do not count. */
  lemma {:induction false} ParseZeros(n: nat, s: string, b: nat)
    ensures Parse(Repeat('0', n) + s, b) == Parse(s, b)
    decreases n + |s|
  {
    var z := Repeat('0', n) + s;
    if s != [] {
      ParseZeros(n, s[..|s| - 1], b);
      assert z[..|z| - 1] == Repeat('0', n) + s[..|s| - 1] && z[|z| - 1] == s[|s| - 1];
    } else if n > 0 {
      ParseZeros(n - 1, [], b);
      assert z[..|z| - 1] == Repeat('0', n - 1) + [] && z[|z| - 1] == '0';
    } else {
      assert z == [];
    }
  }

  lemma DigitsFit(v: nat, b: nat, numDigits: nat)
    requires IsBase(b)
    ensures var w := Count(v, b, numDigits);
      v < Pow(b, w) && Parse(Digits(v, b, w), b) == v
  {
    var w := Count(v, b, numDigits);
    MinDigitsExact(v, b, w);
    hide Pow, Parse, MinDigits, Digits;
    DigitsParse(v, b, w);
  }

  /** Sign, zeros and digits, with blanks on at most one side. */
  lemma LayoutReads(before: nat, sign: string, zeros: nat, digits: string, after: nat, b: nat)
    requires sign == "" || sign == "-" || sign == "+"
    requires digits != [] && forall i :: 0 <= i < |digits| ==> digits[i] != ' ' && digits[i] != '-' && digits[i] != '+'
    ensures var s := Repeat(' ', before) + (sign + Repeat('0', zeros) + digits) + Repeat(' ', after);
      ReadInt(s, b) == if sign == "-" then (0 as int) - Parse(digits, b) else Parse(digits, b)
  {
    var number := Repeat('0', zeros) + digits;
    var body := sign + Repeat('0', zeros) + digits;
    assert body[|body| - 1] == digits[|digits| - 1];
    TrimBoth(before, body, after);
    ParseZeros(zeros, digits, b);
    hide Trim, Parse;
    if sign == "" {
      assert body == number;
    } else {
      assert body[1..] == number;
    }
  }

  /** Where the blanks and the zeros of an int's text are. */
  lemma IntLayout(v: int, b: nat, numDigits: nat, fieldWidth: nat, f: Flags)
      returns (before: nat, zeros: nat, after: nat)
    requires IsBase(b)
    ensures IntText(v, b, numDigits, fieldWidth, f) ==
      Repeat(' ', before) +
      (SignText(v, f) + Repeat('0', zeros) + Digits(Magnitude(v), b, Count(Magnitude(v), b, numDigits)))
      + Repeat(' ', after)
  {
    var pad := Padding(fieldWidth, |SignText(v, f)| + Count(Magnitude(v), b, numDigits));
    hide Digits, Count, SignText, Padding;
    before, zeros, after :=
      if f.left || (f.zero && numDigits == 0) then 0 else pad,
      if !f.left && f.zero && numDigits == 0 then pad else 0,
      if f.left then pad else 0;
  }

  /** Whatever the flags, precision and field width, the text of an int reads back as the int. */
  lemma IntReadsBack(v: int, b: nat, numDigits: nat, fieldWidth: nat, f: Flags)
    requires IsBase(b)
    ensures ReadInt(IntText(v, b, numDigits, fieldWidth, f), b) == v
  {
    var w := Count(Magnitude(v), b, numDigits);
    DigitsFit(Magnitude(v), b, numDigits);
    hide Digits, Count, ReadInt, Parse, Pow, IntText;
    var before, zeros, after := IntLayout(v, b, numDigits, fieldWidth, f);
    LayoutReads(before, SignText(v, f), zeros, Digits(Magnitude(v), b, w), after, b);
  }

  lemma UnsignedLayout(v: nat, b: nat, numDigits: nat, fieldWidth: nat, f: Flags)
      returns (before: nat, zeros: nat, after: nat)
    requires IsBase(b)
    ensures UnsignedText(v, b, numDigits, fieldWidth, f) ==
      Repeat(' ', before) + ("" + Repeat('0', zeros) + Digits(v, b, Count(v, b, numDigits))) + Repeat(' ', after)
  {
    var pad := Padding(fieldWidth, Count(v, b, numDigits));
    hide Digits, Count, Padding;
    before, zeros, after :=
      if f.left || (f.zero && numDigits == 0) then 0 else pad,
      if !f.left && f.zero && numDigits == 0 then pad else 0,
      if f.left then pad else 0;
  }

  lemma UnsignedReadsBack(v: nat, b: nat, numDigits: nat, fieldWidth: nat, f: Flags)
    requires IsBase(b)
    ensures ReadInt(UnsignedText(v, b, numDigits, fieldWidth, f), b) == v
  {
    DigitsFit(v, b, numDigits);
    hide Digits, Count, ReadInt, Parse, Pow, UnsignedText;
    var before, zeros, after := UnsignedLayout(v, b, numDigits, fieldWidth, f);
    LayoutReads(before, "", zeros, Digits(v, b, Count(v, b, numDigits)), after, b);
  }

  // ----- where everything stands

  predicate IsSign(c: char) {
    c == '+' || c == '-'
  }

  /** The characters from i on, up to j, are all c. */
  ghost predicate Filled(s: string, i: nat, j: nat, c: char) {
    i <= j <= |s| && forall k :: i <= k < j ==> s[k] == c
  }

  /** There are no blanks from i on, up to j, and no sign but perhaps at p. */
  ghost predicate Solid(s: string, i: nat, j: nat, p: nat) {
    i <= j <= |s| && forall k :: i <= k < j ==> s[k] != ' ' && (IsSign(s[k]) ==> k == p)
  }

  /** _PrintInt: blanks fill the field behind the number when it is to stand on the left, zeros behind
      the sign when that is asked for and no precision is given, and otherwise blanks before it. A
      minus sign shows a negative number; a plus sign any other, if asked for. */
  lemma IntLaidOut(v: int, b: nat, numDigits: nat, fieldWidth: nat, f: Flags)
    requires IsBase(b)
    ensures var s := IntText(v, b, numDigits, fieldWidth, f);
      var zeros := !f.left && f.zero && numDigits == 0;
      var sign := if v < 0 || f.sign then 1 else 0;
      var body := sign + Count(Magnitude(v), b, numDigits);
      var pad := if fieldWidth > body then fieldWidth - body else 0;
      var p := if f.left || zeros then 0 else pad;
      && |s| == pad + body
      && (f.left ==> Solid(s, 0, body, p) && Filled(s, body, |s|, ' '))
      && (zeros ==> Solid(s, 0, |s|, p) && Filled(s, sign, sign + pad, '0'))
      && (!f.left && !zeros ==> Filled(s, 0, pad, ' ') && Solid(s, pad, |s|, p))
      && (if v < 0 then s[p] == '-' else if f.sign then s[p] == '+' else !IsSign(s[p]))
  {
    var w := Count(Magnitude(v), b, numDigits);
    var digits := Digits(Magnitude(v), b, w);
    assert |SignText(v, f)| == if v < 0 || f.sign then 1 else 0;
    hide Count, Digits, Repeat;
  }

  /** _PrintUnsigned: the same without a sign. */
  lemma UnsignedLaidOut(v: nat, b: nat, numDigits: nat, fieldWidth: nat, f: Flags)
    requires IsBase(b)
    ensures var s := UnsignedText(v, b, numDigits, fieldWidth, f);
      var zeros := !f.left && f.zero && numDigits == 0;
      var body := Count(v, b, numDigits);
      var pad := if fieldWidth > body then fieldWidth - body else 0;
      && |s| == pad + body
      && (f.left ==> Solid(s, 0, body, |s|) && Filled(s, body, |s|, ' '))
      && (zeros ==> Solid(s, 0, |s|, |s|) && Filled(s, 0, pad, '0'))
      && (!f.left && !zeros ==> Filled(s, 0, pad, ' ') && Solid(s, pad, |s|, |s|))
  {
    var digits := Digits(v, b, Count(v, b, numDigits));
    hide Count, Digits, Repeat;
  }
}
