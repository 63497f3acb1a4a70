/** vsprintf.c: `number`, integer paths, and `skip_atoi`. */
module NumberFormat {
  import opened Common

  const UPPER: string := "0123456789ABCDEFGHIJKLMNOPQRSTUVWXYZ"
  const LOWER: string := "0123456789abcdefghijklmnopqrstuvwxyz"

  /** vsprintf.c:6-12, one field per bit. */
  datatype Flags = Flags(zeropad: bool, sign: bool, plus: bool, space: bool, left: bool, special: bool, small: bool)

  /** The character of a digit. */
  function Digit(d: nat, small: bool): char
    requires d < 36
  {
    if d < 10 then '0' + d as char else (if small then 'a' else 'A') + (d - 10) as char
  }

  /** Both tables hold the digits in order. */
  lemma Tables(d: nat)
    requires d < 36
    ensures |UPPER| == 36 && UPPER[d] == Digit(d, false)
    ensures |LOWER| == 36 && LOWER[d] == Digit(d, true)
  {
  }

  /** The value of a digit character of either alphabet. */
  function DigitValue(c: char): int {
    if '0' <= c <= '9' then (c - '0') as int
    else if 'A' <= c <= 'Z' then (c - 'A') as int + 10
    else if 'a' <= c <= 'z' then (c - 'a') as int + 10
    else -1
  }

  lemma DigitReadBack(d: nat, small: bool)
    requires d < 36
    ensures DigitValue(Digit(d, small)) == d
    ensures Digit(d, small) == '0' <==> d == 0
  {
  }

  /** The digits of n, most significant first; "0" for 0. */
  function ToDigits(n: nat, base: nat, small: bool): (s: string)
    requires 2 <= base <= 36
    ensures s != []
  {
    if n < base then [Digit(n, small)] else ToDigits(n / base, base, small) + [Digit(n % base, small)]
  }

  /** Reading digits in a base. */
  function Value(s: string, base: nat): int {
    if s == [] then 0 else Value(s[..|s| - 1], base) * base + DigitValue(s[|s| - 1])
  }

  lemma DivMod(n: nat, base: nat)
    requires base >= 2
    ensures n / base * base + n % base == n && 0 <= n % base < base
    ensures n > 0 ==> n / base < n
    ensures n / base == 0 <==> n < base
  {
  }

  lemma ValueOfAppended(s: string, c: char, base: nat)
    ensures Value(s + [c], base) == Value(s, base) * base + DigitValue(c)
  {
    assert (s + [c])[..|s|] == s;
  }

  /** Reading the digits of n back gives n. */
  lemma {:induction false} ReadBack(n: nat, base: nat, small: bool)
    requires 2 <= base <= 36
    ensures Value(ToDigits(n, base, small), base) == n
    decreases n
  {
    DivMod(n, base);
    if n < base {
      DigitReadBack(n, small);
      ValueOfAppended("", Digit(n, small), base);
      assert Value("", base) == 0;
    } else {
      ReadBack(n / base, base, small);
      DigitReadBack(n % base, small);
      ValueOfAppended(ToDigits(n / base, base, small), Digit(n % base, small), base);
    }
  }

  /** No leading zero, except for 0 itself. */
  lemma {:induction false} NoLeadingZero(n: nat, base: nat, small: bool)
    requires 2 <= base <= 36
    ensures ToDigits(n, base, small)[0] == '0' <==> n == 0
    ensures n == 0 ==> ToDigits(n, base, small) == "0"
    decreases n
  {
    DigitReadBack(if n < base then n else 0, small);
    if n >= base {
      NoLeadingZero(n / base, base, small);
    }
  }

  function Power(base: nat, k: nat): nat {
    if k == 0 then 1 else base * Power(base, k - 1)
  }

  /** A number below base^k has at most k digits. */
  lemma {:induction false} DigitCount(n: nat, base: nat, small: bool, k: nat)
    requires 2 <= base <= 36 && k > 0 && n < Power(base, k)
    ensures |ToDigits(n, base, small)| <= k
    decreases k
  {
    if n >= base {
      assert n / base < Power(base, k - 1);
      DigitCount(n / base, base, small, k - 1);
    }
  }

  lemma {:induction false} PowerGrows(base: nat, k: nat)
    requires base >= 2
    ensures Power(base, k) >= Power(2, k) > 0
  {
    if k > 0 {
      PowerGrows(base, k - 1);
    }
  }

  lemma PowerOfTwo32()
    ensures Power(2, 32) == U32
  {
    assert Power(2, 8) == 0x100;
    assert Power(2, 16) == 0x1_0000;
    assert Power(2, 24) == 0x100_0000;
  }

  /** At most 32 of the 36 cells of tmp are used. */
  lemma FitsTmp(n: Word, base: nat, small: bool)
    requires 2 <= base <= 36
    ensures |ToDigits(n, base, small)| <= 32
  {
    PowerOfTwo32();
    PowerGrows(base, 32);
    DigitCount(n, base, small, 32);
  }

  // ----- the field

  function Repeat(c: char, n: int): (s: string)
    ensures |s| == (if n > 0 then n else 0) && forall i :: 0 <= i < |s| ==> s[i] == c
  {
    if n <= 0 then "" else Repeat(c, n - 1) + [c]
  }

  function Max(a: int, b: int): int {
    if a > b then a else b
  }

  predicate Negative(num: Word, flags: Flags) {
    flags.sign && num >= 0x8000_0000
  }

  function Magnitude(num: Word, flags: Flags): Word {
    if Negative(num, flags) then U32 - num else num
  }

  function Sign(num: Word, flags: Flags): string {
    if Negative(num, flags) then "-" else if flags.plus then "+" else if flags.space then " " else ""
  }

  function Prefix(base: nat, flags: Flags): string {
    if flags.special && base == 8 then "0"
    else if flags.special && base == 16 then (if flags.small then "0x" else "0X")
    else ""
  }

  function Digits(num: Word, base: nat, flags: Flags): string
    requires 2 <= base <= 36
  {
    ToDigits(Magnitude(num, flags), base, flags.small)
  }

  /** What is left of the width. */
  function Fill(num: Word, base: nat, size: int, precision: int, flags: Flags): int
    requires 2 <= base <= 36
  {
    size - |Sign(num, flags)| - |Prefix(base, flags)| - Max(precision, |Digits(num, base, flags)|)
  }

  /** The field: spaces, sign, prefix, zero padding, precision zeros, digits, spaces. */
  function Field(num: Word, base: nat, size: int, precision: int, flags: Flags): string
    requires 2 <= base <= 36
  {
    var fill := Fill(num, base, size, precision, flags);
    var digits := Digits(num, base, flags);
    Repeat(' ', if flags.left || flags.zeropad then 0 else fill) + Sign(num, flags) + Prefix(base, flags)
    + Repeat('0', if flags.zeropad && !flags.left then fill else 0) + Repeat('0', precision - |digits|) + digits
    + Repeat(' ', if flags.left then fill else 0)
  }

  /** The field is as long as asked, or as long as its contents. */
  lemma FieldLength(num: Word, base: nat, size: int, precision: int, flags: Flags)
    requires 2 <= base <= 36
    ensures |Field(num, base, size, precision, flags)| ==
      Max(size, |Sign(num, flags)| + |Prefix(base, flags)| + Max(|Digits(num, base, flags)|, precision))
  {
  }

  lemma {:induction false} ZerosDoNotCount(k: int, s: string, base: nat)
    ensures Value(Repeat('0', k) + s, base) == Value(s, base)
    decreases |s|, k
  {
    if s == [] {
      assert Repeat('0', k) + s == Repeat('0', k);
      if k > 0 {
        ZerosDoNotCount(k - 1, [], base);
        assert Repeat('0', k - 1) + [] == Repeat('0', k - 1);
        ValueOfAppended(Repeat('0', k - 1), '0', base);
      }
    } else {
      var front, last := s[..|s| - 1], s[|s| - 1];
      ZerosDoNotCount(k, front, base);
      assert Repeat('0', k) + s == (Repeat('0', k) + front) + [last];
      ValueOfAppended(Repeat('0', k) + front, last, base);
    }
  }

  /** Zero padding, precision zeros and digits. */
  function Body(num: Word, base: nat, size: int, precision: int, flags: Flags): string
    requires 2 <= base <= 36
  {
    var digits := Digits(num, base, flags);
    Repeat('0', if flags.zeropad && !flags.left then Fill(num, base, size, precision, flags) else 0)
    + (Repeat('0', precision - |digits|) + digits)
  }

  lemma Regroup(a: string, b: string, c: string, d: string, e: string)
    ensures a + b + c + d + e == a + (b + (c + d)) + e
  {
  }

  /** A field is spaces, sign, prefix, body and spaces, with spaces on one side at most, and the
      body reads back as the magnitude: with the sign, as the 32-bit value it was made from. */
  lemma FieldReadsBack(num: Word, base: nat, size: int, precision: int, flags: Flags)
    requires 2 <= base <= 36
    ensures var fill := Fill(num, base, size, precision, flags);
      Field(num, base, size, precision, flags) ==
        Repeat(' ', if flags.left || flags.zeropad then 0 else fill) + Sign(num, flags) + Prefix(base, flags)
        + Body(num, base, size, precision, flags) + Repeat(' ', if flags.left then fill else 0)
    ensures Value(Body(num, base, size, precision, flags), base) == Magnitude(num, flags)
    ensures flags.sign ==>
      (if Negative(num, flags) then 0 - Magnitude(num, flags) else Magnitude(num, flags)) ==
      if num >= 0x8000_0000 then num - U32 else num
  {
    var fill := Fill(num, base, size, precision, flags);
    var digits := Digits(num, base, flags);
    var zeros := Repeat('0', if flags.zeropad && !flags.left then fill else 0);
    var more := Repeat('0', precision - |digits|);
    ZerosDoNotCount(precision - |digits|, digits, base);
    ZerosDoNotCount(if flags.zeropad && !flags.left then fill else 0, more + digits, base);
    ReadBack(Magnitude(num, flags), base, flags.small);
    Regroup(Repeat(' ', if flags.left || flags.zeropad then 0 else fill) + Sign(num, flags) + Prefix(base, flags),
            zeros, more, digits, Repeat(' ', if flags.left then fill else 0));
  }

  // ----- what a printed integer looks like

  /** The numeral of n: its digits, all of the base and of one case, read back as n, and the first is 0 for
      0 only. */
  predicate IsNumeral(s: string, n: nat, base: nat, small: bool) {
    && s != "" && Value(s, base) == n && (s[0] == '0' ==> s == "0")
    && forall k :: 0 <= k < |s| ==> IsDigitOf(s[k], base, small)
  }

  predicate IsDigitOf(c: char, base: nat, small: bool) {
    0 <= DigitValue(c) < base && if small then !('A' <= c <= 'Z') else !('a' <= c <= 'z')
  }

  lemma {:induction false} DigitsOfBase(n: nat, base: nat, small: bool)
    requires 2 <= base <= 36
    ensures forall k :: 0 <= k < |ToDigits(n, base, small)| ==> IsDigitOf(ToDigits(n, base, small)[k], base, small)
    decreases n
  {
    DigitReadBack(n % base, small);
    if n >= base {
      DivMod(n, base);
      DigitsOfBase(n / base, base, small);
    }
  }

  lemma ToDigitsIsNumeral(n: nat, base: nat, small: bool)
    requires 2 <= base <= 36
    ensures IsNumeral(ToDigits(n, base, small), n, base, small)
  {
    ReadBack(n, base, small);
    NoLeadingZero(n, base, small);
    DigitsOfBase(n, base, small);
  }

  function Shown(before: nat, sign: string, prefix: string, zeros: nat, numeral: string, after: nat): string {
    Repeat(' ', before) + sign + prefix + Repeat('0', zeros) + numeral + Repeat(' ', after)
  }

  /** The text shows n in a base with a sign and a prefix: at least `precision` digits, `width` characters or
      as many as it takes, filled up with spaces behind if `left` is asked for, otherwise in front, with zeros
      behind the prefix if `zero` is and with spaces if not. */
  ghost predicate ShowsInteger(text: string, n: nat, base: nat, small: bool, sign: string, prefix: string,
                               width: int, precision: int, left: bool, zero: bool)
  {
    && (exists before: nat, zeros: nat, numeral: string, after: nat ::
          && text == Shown(before, sign, prefix, zeros, numeral, after) && IsNumeral(numeral, n, base, small)
          && zeros >= precision - |numeral|
          && (before > 0 ==> !left && !zero) && (after > 0 ==> left)
          && (zeros > 0 && zeros > precision - |numeral| ==> zero && !left)
          && |text| == Max(width, |sign| + |prefix| + Max(precision, |numeral|)))
  }

  lemma ZerosJoin(a: int, b: int)
    ensures Repeat('0', a) + Repeat('0', b) == Repeat('0', Max(a, 0) + Max(b, 0))
  {
  }

  lemma ShowsWith(text: string, n: nat, base: nat, small: bool, sign: string, prefix: string, width: int,
                  precision: int, left: bool, zero: bool, before: nat, zeros: nat, numeral: string, after: nat)
    requires text == Shown(before, sign, prefix, zeros, numeral, after) && IsNumeral(numeral, n, base, small)
    requires zeros >= precision - |numeral| && (before > 0 ==> !left && !zero) && (after > 0 ==> left)
    requires zeros > 0 && zeros > precision - |numeral| ==> zero && !left
    requires |text| == Max(width, |sign| + |prefix| + Max(precision, |numeral|))
    ensures ShowsInteger(text, n, base, small, sign, prefix, width, precision, left, zero)
  {
  }

  lemma JoinZeros(lead: string, a: string, b: string, digits: string, trail: string)
    ensures lead + a + b + digits + trail == lead + (a + b) + digits + trail
  {
    assert lead + a + b == lead + (a + b);
  }

  lemma FieldIsShown(num: Word, base: nat, size: int, precision: int, flags: Flags)
    requires 2 <= base <= 36
    ensures var fill, digits := Fill(num, base, size, precision, flags), Digits(num, base, flags);
      Field(num, base, size, precision, flags) ==
        Shown(if flags.left || flags.zeropad then 0 else Max(fill, 0), Sign(num, flags), Prefix(base, flags),
              (if flags.zeropad && !flags.left then Max(fill, 0) else 0) + Max(precision - |digits|, 0), digits,
              if flags.left then Max(fill, 0) else 0)
  {
    var fill, digits := Fill(num, base, size, precision, flags), Digits(num, base, flags);
    var padding := if flags.zeropad && !flags.left then fill else 0;
    ZerosJoin(padding, precision - |digits|);
    SpacesOf(fill);
    JoinZeros(Repeat(' ', if flags.left || flags.zeropad then 0 else fill) + Sign(num, flags) + Prefix(base, flags),
              Repeat('0', padding), Repeat('0', precision - |digits|), digits,
              Repeat(' ', if flags.left then fill else 0));
  }

  lemma SpacesOf(n: int)
    ensures Repeat(' ', n) == Repeat(' ', Max(n, 0))
  {
  }

  /** The field of number, with the sign and prefix written out. */
  lemma FieldShows(num: Word, base: nat, size: int, precision: int, flags: Flags)
    requires 2 <= base <= 36
    ensures var negative := flags.sign && num >= 0x8000_0000;
      ShowsInteger(Field(num, base, size, precision, flags), if negative then 0x1_0000_0000 - num else num, base,
                   flags.small,
                   if negative then "-" else if flags.plus then "+" else if flags.space then " " else "",
                   if !flags.special then "" else if base == 8 then "0"
                   else if base == 16 then (if flags.small then "0x" else "0X") else "",
                   size, precision, flags.left, flags.zeropad)
  {
    var fill, digits := Fill(num, base, size, precision, flags), Digits(num, base, flags);
    ToDigitsIsNumeral(Magnitude(num, flags), base, flags.small);
    FieldIsShown(num, base, size, precision, flags);
    FieldLength(num, base, size, precision, flags);
    ShowsWith(Field(num, base, size, precision, flags), Magnitude(num, flags), base, flags.small, Sign(num, flags),
              Prefix(base, flags), size, precision, flags.left, flags.zeropad,
              if flags.left || flags.zeropad then 0 else Max(fill, 0),
              (if flags.zeropad && !flags.left then Max(fill, 0) else 0) + Max(precision - |digits|, 0), digits,
              if flags.left then Max(fill, 0) else 0);
  }

  /** vsprintf.c:32-170 without DOUBLE; None is the null pointer for a bad base. `str` collects
      what is stored through the output pointer. */
  method Number(num: Word, base: int, size: int, precision: int, flags: Flags) returns (str: Option<string>)
    ensures str == None <==> !(2 <= base <= 36)
    ensures 2 <= base <= 36 ==> str.value == Field(num, base, size, precision, flags)
  {
    var digits := DigitTable(flags.small);
    if base < 2 || base > 36 {
      return None;
    }
    var n := num;
    var sign := "";
    if flags.sign && n >= 0x8000_0000 {
      sign := "-";
      n := U32 - n;
    } else {
      sign := if flags.plus then "+" else if flags.space then " " else "";
    }
    var width := if sign != "" then size - 1 else size;
    if flags.special {
      if base == 16 {
        width := width - 2;
      } else if base == 8 {
        width := width - 1;
      }
    }
    var tmp := new char[36];
    var i := FillTmp(tmp, n, base, digits, flags.small);
    var prec := if i > precision then i else precision;
    width := width - prec;

    assert width == Fill(num, base, size, precision, flags);
    var out := Compose(num, base, size, precision, flags, sign, tmp, i, width, prec, digits);
    str := Some(out);
  }

  /** vsprintf.c:125-169, from the digits in tmp and what is left of the width. */
  method Compose(ghost num: Word, base: nat, ghost size: int, ghost precision: int, flags: Flags,
                 sign: string, tmp: array<char>, i: nat, fill: int, prec: int, digits: string) returns (out: string)
    requires 2 <= base <= 36 && sign == Sign(num, flags) && fill == Fill(num, base, size, precision, flags)
    requires i == |Digits(num, base, flags)| <= tmp.Length && prec == Max(precision, i)
    requires forall k :: 0 <= k < i ==> tmp[k] == Digits(num, base, flags)[i - 1 - k]
    requires |digits| == 36 && forall d: nat :: d < 36 ==> digits[d] == Digit(d, flags.small)
    ensures out == Field(num, base, size, precision, flags)
  {
    ghost var text := Digits(num, base, flags);
    var zeropad := flags.zeropad && !flags.left;
    var width, p := fill, prec;
    out := "";
    if !zeropad && !flags.left {
      out, width := Emit(out, ' ', width);
    }
    ghost var lead := Repeat(' ', if flags.left || flags.zeropad then 0 else fill);
    assert out == lead;
    out := out + sign;
    out := EmitPrefix(out, base, flags, digits);
    ghost var prefixed := out;
    if !flags.left {
      out, width := Emit(out, if zeropad then '0' else ' ', width);
    }
    ghost var zeros := Repeat('0', if zeropad then fill else 0);
    assert out == prefixed + zeros;
    ghost var more := Repeat('0', precision - i);
    assert more == Repeat('0', p - i);
    out, p := Emit(out, '0', p - i);
    out := CopyTmp(out, tmp, i, text);
    ghost var trail := Repeat(' ', if flags.left then fill else 0);
    assert trail == Repeat(' ', width);
    out, width := Emit(out, ' ', width);
    FieldIs(num, base, size, precision, flags, lead, sign, Prefix(base, flags), zeros, more, text, trail);
  }

  /** vsprintf.c:138-147. */
  method EmitPrefix(str: string, base: nat, flags: Flags, digits: string) returns (out: string)
    requires |digits| == 36 && forall d: nat :: d < 36 ==> digits[d] == Digit(d, flags.small)
    ensures out == str + Prefix(base, flags)
  {
    out := str;
    if flags.special {
      if base == 8 {
        out := out + "0";
      } else if base == 16 {
        out := out + ['0', digits[33]];
      }
    }
  }

  lemma FieldIs(num: Word, base: nat, size: int, precision: int, flags: Flags,
                lead: string, sign: string, prefix: string, zeros: string, more: string, text: string, trail: string)
    requires 2 <= base <= 36
    requires sign == Sign(num, flags) && prefix == Prefix(base, flags) && text == Digits(num, base, flags)
    requires var fill := Fill(num, base, size, precision, flags);
      && lead == Repeat(' ', if flags.left || flags.zeropad then 0 else fill)
      && zeros == Repeat('0', if flags.zeropad && !flags.left then fill else 0)
      && more == Repeat('0', precision - |text|) && trail == Repeat(' ', if flags.left then fill else 0)
    ensures Field(num, base, size, precision, flags) == lead + sign + prefix + zeros + more + text + trail
  {
  }

  /** vsprintf.c:39 and 45-46. */
  method DigitTable(small: bool) returns (digits: string)
    ensures |digits| == 36 && forall d: nat :: d < 36 ==> digits[d] == Digit(d, small)
  {
    forall d: nat | d < 36 ensures UPPER[d] == Digit(d, false) && LOWER[d] == Digit(d, true) {
      Tables(d);
    }
    digits := "0123456789ABCDEFGHIJKLMNOPQRSTUVWXYZ";
    if small {
      digits := "0123456789abcdefghijklmnopqrstuvwxyz";
    }
  }

  /** vsprintf.c:161-162. */
  method CopyTmp(str: string, tmp: array<char>, count: nat, ghost text: string) returns (out: string)
    requires count == |text| <= tmp.Length && forall k :: 0 <= k < count ==> tmp[k] == text[count - 1 - k]
    ensures out == str + text
  {
    out := str;
    var i := count;
    while i > 0
      invariant 0 <= i <= count && out == str + text[..count - i]
    {
      i := i - 1;
      out := out + [tmp[i]];
    }
    assert text[..count] == text;
  }

  /** `while (n-- > 0) *str++ = c;`: the counter ends below zero. */
  method Emit(str: string, c: char, count: int) returns (out: string, n: int)
    ensures out == str + Repeat(c, count)
    ensures n == if count > 0 then -1 else count - 1
  {
    out, n := str, count;
    while n > 0
      invariant count > 0 ==> 0 <= n <= count
      invariant count <= 0 ==> n == count
      invariant out == str + Repeat(c, count - n)
    {
      n := n - 1;
      out := out + [c];
    }
    n := n - 1;
  }

  /** vsprintf.c:108-116: the digits, least significant first. */
  method FillTmp(tmp: array<char>, num: Word, base: nat, digits: string, small: bool) returns (i: nat)
    requires tmp.Length == 36 && 2 <= base <= 36
    requires |digits| == 36 && forall d: nat :: d < 36 ==> digits[d] == Digit(d, small)
    modifies tmp
    ensures i == |ToDigits(num, base, small)| <= 32
    ensures forall k :: 0 <= k < i ==> tmp[k] == ToDigits(num, base, small)[i - 1 - k]
  {
    ghost var text := ToDigits(num, base, small);
    FitsTmp(num, base, small);
    i := 0;
    if num == 0 {
      tmp[i] := '0';
      i := 1;
    } else {
      var n: nat := num;
      while n != 0
        invariant i <= |text| && (n == 0 <==> i == |text|)
        invariant n != 0 ==> text[..|text| - i] == ToDigits(n, base, small)
        invariant forall k :: 0 <= k < i ==> tmp[k] == text[|text| - 1 - k]
        decreases n
      {
        n := FillDigit(tmp, n, base, digits, small, i, text);
        i := i + 1;
      }
    }
  }

  /** vsprintf.c:112-114, one round of the loop. */
  method FillDigit(tmp: array<char>, n: nat, base: nat, digits: string, small: bool, i: nat, ghost text: string)
    returns (left: nat)
    requires tmp.Length == 36 && 2 <= base <= 36 && n > 0 && i <= |text| <= 32
    requires |digits| == 36 && forall d: nat :: d < 36 ==> digits[d] == Digit(d, small)
    requires text[..|text| - i] == ToDigits(n, base, small)
    modifies tmp
    ensures i < |text| && left < n && tmp[..] == old(tmp[..])[i := text[|text| - 1 - i]]
    ensures left == 0 <==> i + 1 == |text|
    ensures left != 0 ==> text[..|text| - (i + 1)] == ToDigits(left, base, small)
  {
    NextDigit(n, base, small, text, i);
    tmp[i] := digits[n % base];
    left := n / base;
  }

  /** One round: the last of the digits not yet written, and those before it. */
  lemma NextDigit(n: nat, base: nat, small: bool, text: string, i: nat)
    requires 2 <= base <= 36 && n > 0 && i <= |text| && text[..|text| - i] == ToDigits(n, base, small)
    ensures i < |text| && n % base < 36 && text[|text| - 1 - i] == Digit(n % base, small) && n / base < n
    ensures n / base == 0 <==> i + 1 == |text|
    ensures n / base != 0 ==> text[..|text| - (i + 1)] == ToDigits(n / base, base, small)
  {
    var left := text[..|text| - i];
    DivMod(n, base);
    LastDigit(n, base, small, left);
    assert left[..|left| - 1] == text[..|text| - (i + 1)];
  }

  lemma LastDigit(n: nat, base: nat, small: bool, text: string)
    requires 2 <= base <= 36 && n > 0 && text == ToDigits(n, base, small)
    ensures text[|text| - 1] == Digit(n % base, small)
    ensures n < base <==> |text| == 1
    ensures n >= base ==> text[..|text| - 1] == ToDigits(n / base, base, small)
  {
    if n < base {
      assert n % base == n;
    }
  }

  // ----- skip_atoi

  predicate IsDigit(c: char) {
    '0' <= c <= '9'
  }

  /** How many digits s starts with. */
  function Lead(s: string): (n: nat)
    ensures n <= |s|
  {
    if s != [] && IsDigit(s[0]) then 1 + Lead(s[1..]) else 0
  }

  lemma ValueNext(fmt: string, pos: nat, next: nat)
    requires pos <= next < |fmt| && IsDigit(fmt[next])
    ensures Value(fmt[pos..next + 1], 10) == Value(fmt[pos..next], 10) * 10 + (fmt[next] as int - '0' as int)
  {
    var seen := fmt[pos..next + 1];
    assert seen[..|seen| - 1] == fmt[pos..next];
    assert seen[|seen| - 1] == fmt[next];
  }

  /** vsprintf.c:18-23 from position pos of fmt: the value of the digits there and the position
      behind them. `peak` is the largest intermediate value, the one before '0' is taken off:
      the C int does not overflow as long as value + 48 fits. */
  method SkipAtoi(fmt: string, pos: nat) returns (value: nat, next: nat, ghost peak: nat)
    requires pos <= |fmt|
    ensures next == pos + Lead(fmt[pos..]) && value == Value(fmt[pos..next], 10)
    ensures peak <= value + 48
  {
    next, value, peak := pos, 0, 0;
    while next < |fmt| && IsDigit(fmt[next])
      invariant pos <= next <= |fmt| && next - pos <= Lead(fmt[pos..])
      invariant forall i :: pos <= i < next ==> IsDigit(fmt[i])
      invariant value == Value(fmt[pos..next], 10) && peak <= value + 48
    {
      ValueNext(fmt, pos, next);
      LeadBeyond(fmt[pos..], next - pos);
      peak := value * 10 + fmt[next] as nat;
      value := value * 10 + fmt[next] as nat - '0' as nat;
      next := next + 1;
    }
    assert next < |fmt| ==> fmt[next] == fmt[pos..][next - pos];
    LeadBeyond(fmt[pos..], next - pos);
  }

  lemma {:induction false} LeadBeyond(s: string, n: nat)
    requires n <= |s| && forall i :: 0 <= i < n ==> IsDigit(s[i])
    ensures n <= Lead(s) && (n < |s| && IsDigit(s[n]) ==> n < Lead(s))
    ensures n == |s| || !IsDigit(s[n]) ==> n == Lead(s)
  {
    if n > 0 {
      LeadBeyond(s[1..], n - 1);
    }
  }

  /** skip_atoi undoes unpadded decimal output. */
  lemma AtoiOfDecimal(n: nat, rest: string)
    requires rest != [] ==> !IsDigit(rest[0])
    ensures var s := ToDigits(n, 10, false);
      Lead(s + rest) == |s| && Value((s + rest)[..|s|], 10) == n
  {
    var s := ToDigits(n, 10, false);
    DecimalDigits(n);
    LeadBeyond(s + rest, |s|);
    assert (s + rest)[..|s|] == s;
    ReadBack(n, 10, false);
  }

  lemma {:induction false} DecimalDigits(n: nat)
    ensures forall i :: 0 <= i < |ToDigits(n, 10, false)| ==> IsDigit(ToDigits(n, 10, false)[i])
    decreases n
  {
    if n >= 10 {
      DecimalDigits(n / 10);
    }
  }
}
