/** vsprintf.c: what a directive prints, from the characters it is written with: flags, a width in decimal or
    taken from the arguments, a precision in decimal, a qualifier and the conversion. */
module Directives {
  import opened Common
  import opened NumberFormat
  import opened Printf

  // ----- how a directive is written

  /** No width, a number, or a star, which takes argument `w`. */
  datatype Size = Unset | Written(n: nat) | Passed(w: Word)

  function SizeText(size: Size): string {
    match size
    case Unset => ""
    case Written(n) => ToDigits(n, 10, false)
    case Passed(_) => "*"
  }

  function SizeArgs(size: Size): seq<Arg> {
    if size.Passed? then [Num(size.w)] else []
  }

  /** A 32-bit word as a C int. */
  function IntOf(w: Word): int {
    if w < 0x8000_0000 then w else w - 0x1_0000_0000
  }

  function Abs(i: int): nat {
    if i < 0 then -i else i
  }

  /** The width meant: -1 for none; a negative argument means its magnitude, and left. */
  function SizeOf(size: Size): int {
    match size
    case Unset => -1
    case Written(n) => n
    case Passed(w) => Abs(IntOf(w))
  }

  predicate TurnsLeft(size: Size) {
    size.Passed? && IntOf(size.w) < 0
  }

  /** No precision, a dot alone, or a dot and a number. */
  datatype Precision = Omitted | Dot | Decimal(n: nat)

  function PrecisionText(precision: Precision): string {
    match precision
    case Omitted => ""
    case Dot => "."
    case Decimal(n) => "." + ToDigits(n, 10, false)
  }

  /** The precision meant: -1 for none, 0 for a dot alone. */
  function PrecisionOf(precision: Precision): int {
    match precision
    case Omitted => -1
    case Dot => 0
    case Decimal(n) => n
  }

  /** A character that can only be the conversion. */
  predicate IsPlain(conv: char) {
    !IsFlag(conv) && !IsDigit(conv) && !IsQualifier(conv) && conv != '*' && conv != '.'
  }

  predicate IsQualifierText(s: string) {
    s == "" || (|s| == 1 && IsQualifier(s[0]))
  }

  /** The flags when the width has been read. */
  function Turned(flags: Flags, size: Size): Flags {
    if TurnsLeft(size) then flags.(left := true) else flags
  }

  lemma SizeRead(flags: Flags, size: Size, t: string, args: seq<Arg>)
    requires t != [] && !IsDigit(t[0]) && t[0] != '*'
    ensures WidthStage(flags, SizeText(size) + t, SizeArgs(size) + args) ==
      Stage(Turned(flags, size), SizeOf(size), |SizeText(size)|, args)
  {
    match size
    case Unset => assert SizeText(size) + t == t && SizeArgs(size) + args == args;
    case Written(n) =>
      AtoiOfDecimal(n, t);
      DecimalDigits(n);
      assert SizeArgs(size) + args == args;
    case Passed(w) =>
      assert (SizeText(size) + t)[0] == '*' && (SizeArgs(size) + args)[1..] == args;
  }

  lemma PrecisionRead(flags: Flags, precision: Precision, t: string, args: seq<Arg>)
    requires t != [] && !IsDigit(t[0]) && t[0] != '.' && t[0] != '*'
    ensures PrecisionStage(flags, PrecisionText(precision) + t, args) ==
      Stage(flags, PrecisionOf(precision), |PrecisionText(precision)|, args)
  {
    match precision
    case Omitted => assert PrecisionText(precision) + t == t;
    case Dot => assert (PrecisionText(precision) + t)[1] == t[0];
    case Decimal(n) =>
      assert (PrecisionText(precision) + t)[1..] == ToDigits(n, 10, false) + t;
      AtoiOfDecimal(n, t);
      DecimalDigits(n);
  }

  lemma DropFront(s: string, j: nat, a: string, b: string)
    requires j <= |s| && s[j..] == a + b
    ensures j + |a| <= |s| && s[j + |a|..] == b
  {
    assert s[j + |a|..] == s[j..][|a|..];
  }

  lemma ConversionRead(s: string, k: nat, flags: Flags, width: int, precision: int, qualifier: string, conv: char,
                       rest: string)
    requires IsQualifierText(qualifier) && IsPlain(conv) && k <= |s| && s[k..] == qualifier + ([conv] + rest)
    ensures |rest| <= |s| && s[|s| - |rest|..] == rest
    ensures ConversionAt(s, k, flags, width, precision) == Directive(flags, width, precision, conv, |s| - |rest|)
  {
    DropFront(s, k, qualifier, [conv] + rest);
    DropFront(s, k + |qualifier|, [conv], rest);
    assert s[k + |qualifier|] == s[k + |qualifier|..][0] == conv;
    assert qualifier != "" ==> s[k] == s[k..][0] == qualifier[0];
  }

  lemma ConversionFirst(qualifier: string, conv: char, rest: string)
    requires IsQualifierText(qualifier) && IsPlain(conv)
    ensures var end := qualifier + ([conv] + rest); end != [] && !IsDigit(end[0]) && end[0] != '.' && end[0] != '*'
  {
    assert (qualifier + ([conv] + rest))[0] == if qualifier == "" then conv else qualifier[0];
  }

  /** Behind the width: precision, qualifier and conversion. */
  lemma AfterWidthReads(s: string, j: nat, w: Stage, precision: Precision, qualifier: string, conv: char,
                        rest: string)
    requires IsQualifierText(qualifier) && IsPlain(conv) && w.Stage? && j + w.length <= |s|
    requires s[j + w.length..] == PrecisionText(precision) + (qualifier + ([conv] + rest))
    ensures |rest| <= |s| && s[|s| - |rest|..] == rest
    ensures AfterWidth(s, j, w) == Ok(Directive(w.flags, w.value, PrecisionOf(precision), conv, |s| - |rest|), w.args)
  {
    var k, end := j + w.length, qualifier + ([conv] + rest);
    ConversionFirst(qualifier, conv, rest);
    PrecisionRead(w.flags, precision, end, w.args);
    var p := Stage(w.flags, PrecisionOf(precision), |PrecisionText(precision)|, w.args);
    DropFront(s, k, PrecisionText(precision), end);
    ConversionRead(s, k + p.length, w.flags, w.value, PrecisionOf(precision), qualifier, conv, rest);
    Staged(s, j, w, p, Directive(w.flags, w.value, PrecisionOf(precision), conv, |s| - |rest|));
  }

  /** Behind the flags. */
  lemma DirectiveTail(s: string, j: nat, flags: Flags, width: Size, precision: Precision, qualifier: string,
                      conv: char, rest: string, args: seq<Arg>)
    requires IsQualifierText(qualifier) && IsPlain(conv) && j <= |s|
    requires s[j..] == SizeText(width) + (PrecisionText(precision) + (qualifier + ([conv] + rest)))
    ensures |rest| <= |s| && s[|s| - |rest|..] == rest
    ensures AfterWidth(s, j, WidthStage(flags, s[j..], SizeArgs(width) + args)) ==
      Ok(Directive(Turned(flags, width), SizeOf(width), PrecisionOf(precision), conv, |s| - |rest|), args)
  {
    BackFirst(precision, qualifier, conv, rest);
    var w := SizeReadAt(s, j, flags, width, PrecisionText(precision) + (qualifier + ([conv] + rest)), args);
    AfterWidthReads(s, j, w, precision, qualifier, conv, rest);
  }

  lemma SizeReadAt(s: string, j: nat, flags: Flags, width: Size, back: string, args: seq<Arg>) returns (w: Stage)
    requires j <= |s| && s[j..] == SizeText(width) + back && back != [] && !IsDigit(back[0]) && back[0] != '*'
    ensures WidthStage(flags, s[j..], SizeArgs(width) + args) == w
    ensures w == Stage(Turned(flags, width), SizeOf(width), |SizeText(width)|, args)
    ensures j + w.length <= |s| && s[j + w.length..] == back
  {
    SizeRead(flags, width, back, args);
    DropFront(s, j, SizeText(width), back);
    w := Stage(Turned(flags, width), SizeOf(width), |SizeText(width)|, args);
  }

  lemma BackFirst(precision: Precision, qualifier: string, conv: char, rest: string)
    requires IsQualifierText(qualifier) && IsPlain(conv)
    ensures var back := PrecisionText(precision) + (qualifier + ([conv] + rest));
      back != [] && !IsDigit(back[0]) && back[0] != '*' && !IsFlag(back[0])
  {
    var end := qualifier + ([conv] + rest);
    assert end[0] == if qualifier == "" then conv else qualifier[0];
    assert (PrecisionText(precision) + end)[0] == if precision == Omitted then end[0] else '.';
  }

  lemma NoFlagFirst(width: Size, t: string)
    requires width != Size.Written(0) && t != [] && !IsFlag(t[0])
    ensures !IsFlag((SizeText(width) + t)[0])
  {
    match width
    case Unset => assert SizeText(width) + t == t;
    case Written(n) =>
      NoLeadingZero(n, 10, false);
      DecimalDigits(n);
    case Passed(_) =>
  }

  /** Everything but the '%' of a directive, and what follows it. */
  function DirectiveText(flags: string, width: Size, precision: Precision, qualifier: string, conv: char,
                         rest: string): string
  {
    flags + (SizeText(width) + (PrecisionText(precision) + (qualifier + ([conv] + rest))))
  }

  /** A directive whose first width digit is not 0, which would be a flag. */
  predicate IsDirective(flags: string, width: Size, qualifier: string, conv: char) {
    && AreFlags(flags) && width != Size.Written(0) && IsPlain(conv)
    && (qualifier == "" || qualifier == "h" || qualifier == "l" || qualifier == "L")
  }

  predicate AreFlags(s: string) {
    forall k :: 0 <= k < |s| ==> s[k] == '-' || s[k] == '+' || s[k] == ' ' || s[k] == '#' || s[k] == '0'
  }

  predicate IsIntegerConversion(conv: char) {
    conv == 'd' || conv == 'i' || conv == 'o' || conv == 'u' || conv == 'b' || conv == 'x' || conv == 'X' || conv == 'p'
  }

  // ----- what the flag characters mean

  /** Each flag character sets its own flag, and the other two flags are not set by any. */
  function FlagsFrom(s: string): Flags {
    Flags('0' in s, false, '+' in s, ' ' in s, '-' in s, '#' in s, false)
  }

  /** The flags, with those the characters of s ask for. */
  function Joined(flags: Flags, s: string): Flags {
    Flags(flags.zeropad || '0' in s, flags.sign, flags.plus || '+' in s, flags.space || ' ' in s,
          flags.left || '-' in s, flags.special || '#' in s, flags.small)
  }

  lemma FirstOrRest(s: string, c: char)
    requires s != ""
    ensures c in s <==> s[0] == c || c in s[1..]
  {
  }

  lemma JoinedFirst(flags: Flags, s: string)
    requires s != "" && AreFlags(s)
    ensures Joined(WithFlag(flags, s[0]), s[1..]) == Joined(flags, s)
  {
    SetsOnly(flags, s[0]);
    FirstOrRest(s, '0');
    FirstOrRest(s, '+');
    FirstOrRest(s, ' ');
    FirstOrRest(s, '-');
    FirstOrRest(s, '#');
  }

  lemma SetsOnly(flags: Flags, c: char)
    requires AreFlags([c])
    ensures WithFlag(flags, c) ==
      Flags(flags.zeropad || c == '0', flags.sign, flags.plus || c == '+', flags.space || c == ' ',
            flags.left || c == '-', flags.special || c == '#', flags.small)
  {
    assert [c][0] == c;
  }

  lemma {:induction false} FlagsGathered(flags: Flags, s: string)
    requires AreFlags(s)
    ensures FlagsOf(flags, s) == Joined(flags, s)
    decreases |s|
  {
    if s != "" {
      JoinedFirst(flags, s);
      FlagsGathered(WithFlag(flags, s[0]), s[1..]);
    }
  }

  lemma FlagMeaning(s: string)
    requires AreFlags(s)
    ensures FlagsOf(NO_FLAGS, s) == FlagsFrom(s) && forall k :: 0 <= k < |s| ==> IsFlag(s[k])
  {
    FlagsGathered(NO_FLAGS, s);
  }

  // ----- how a directive is read

  /** The directive meant by its parts. */
  function Meant(flags: string, width: Size, precision: Precision, conv: char, length: nat): Directive {
    Directive(FlagsFrom(flags).(left := '-' in flags || TurnsLeft(width)), SizeOf(width), PrecisionOf(precision), conv,
              length)
  }

  lemma DirectiveParsed(s: string, flags: string, width: Size, precision: Precision, qualifier: string,
                        conv: char, rest: string, args: seq<Arg>) returns (d: Directive)
    requires s == DirectiveText(flags, width, precision, qualifier, conv, rest)
    requires IsDirective(flags, width, qualifier, conv)
    ensures Parse(s, SizeArgs(width) + args) == Ok(d, args) && d == Meant(flags, width, precision, conv, d.length)
    ensures d.length <= |s| && s[d.length..] == rest
  {
    BackFirst(precision, qualifier, conv, rest);
    DirectiveFlags(s, flags, width, PrecisionText(precision) + (qualifier + ([conv] + rest)));
    DirectiveTail(s, |flags|, FlagsFrom(flags), width, precision, qualifier, conv, rest, args);
    d := Meant(flags, width, precision, conv, |s| - |rest|);
    ParseIs(s, SizeArgs(width) + args, |flags|, FlagsFrom(flags));
  }

  lemma ParseIs(s: string, args: seq<Arg>, j: nat, flags: Flags)
    requires j == FlagCount(s) && flags == FlagsOf(NO_FLAGS, s)
    ensures j <= |s| && Parse(s, args) == AfterWidth(s, j, WidthStage(flags, s[j..], args))
  {
  }

  lemma DirectiveFlags(s: string, flags: string, width: Size, back: string)
    requires AreFlags(flags) && width != Size.Written(0) && back != [] && !IsFlag(back[0])
    requires s == flags + (SizeText(width) + back)
    ensures FlagCount(s) == |flags| && FlagsOf(NO_FLAGS, s) == FlagsFrom(flags)
    ensures s[|flags|..] == SizeText(width) + back
  {
    FlagMeaning(flags);
    NoFlagFirst(width, back);
    FlagsDropped(flags, SizeText(width) + back);
  }

  lemma FlagsDropped(flags: string, t: string)
    requires (forall k :: 0 <= k < |flags| ==> IsFlag(flags[k])) && t != [] && !IsFlag(t[0])
    ensures FlagCount(flags + t) == |flags| && FlagsOf(NO_FLAGS, flags + t) == FlagsOf(NO_FLAGS, flags)
    ensures (flags + t)[|flags|..] == t
  {
    AllFlags(flags, t, NO_FLAGS);
  }

  lemma Read(fmt: string, flags: string, width: Size, precision: Precision, qualifier: string, conv: char,
             rest: string, args: seq<Arg>) returns (d: Directive)
    requires fmt != "" && fmt[0] == '%' && fmt[1..] == DirectiveText(flags, width, precision, qualifier, conv, rest)
    requires IsDirective(flags, width, qualifier, conv)
    ensures d == Meant(flags, width, precision, conv, d.length)
    ensures IsRead(fmt, d, rest, SizeArgs(width) + args, args)
  {
    d := DirectiveParsed(fmt[1..], flags, width, precision, qualifier, conv, rest, args);
  }

  /** The format starts with directive d, and `rest` is behind it. */
  predicate IsRead(fmt: string, d: Directive, rest: string, args: seq<Arg>, left: seq<Arg>) {
    && fmt != "" && fmt[0] == '%' && Parse(fmt[1..], args) == Ok(d, left)
    && 1 + d.length <= |fmt| && fmt[1..][d.length..] == rest
  }

  /** A directive prints what its conversion writes, and the format goes on behind it. */
  lemma ParsedPrints(fmt: string, d: Directive, rest: string, all: seq<Arg>, left: seq<Arg>, args: seq<Arg>,
                     text: string)
    requires IsRead(fmt, d, rest, all, left) && Convert(d, left) == Text(text, args)
    ensures Format(fmt, all) == Prepend(text, Format(rest, args))
  {
    assert fmt[1 + d.length..] == rest;
    FormatDirective(fmt, all, d, left, Text(text, args));
  }

  // ----- what the conversions print

  /** The sign of a number: a minus, or what the flags ask for in its place. */
  function SignShown(flags: string, negative: bool): string {
    if negative then "-" else if '+' in flags then "+" else if ' ' in flags then " " else ""
  }

  function PrefixShown(flags: string, prefix: string): string {
    if '#' in flags then prefix else ""
  }

  /** What an integer directive prints: base, digits, sign, prefix and width of each conversion. */
  ghost predicate Prints(text: string, flags: string, width: Size, precision: Precision, conv: char, n: Word) {
    var left, zero, w, p := '-' in flags || TurnsLeft(width), '0' in flags, SizeOf(width), PrecisionOf(precision);
    var sign := SignShown(flags, false);
    match conv
    case 'd' => ShowsInteger(text, Abs(IntOf(n)), 10, false, SignShown(flags, IntOf(n) < 0), "", w, p, left, zero)
    case 'i' => ShowsInteger(text, Abs(IntOf(n)), 10, false, SignShown(flags, IntOf(n) < 0), "", w, p, left, zero)
    case 'u' => ShowsInteger(text, n, 10, false, sign, "", w, p, left, zero)
    case 'b' => ShowsInteger(text, n, 2, false, sign, "", w, p, left, zero)
    case 'o' => ShowsInteger(text, n, 8, false, sign, PrefixShown(flags, "0"), w, p, left, zero)
    case 'x' => ShowsInteger(text, n, 16, true, sign, PrefixShown(flags, "0x"), w, p, left, zero)
    case 'X' => ShowsInteger(text, n, 16, false, sign, PrefixShown(flags, "0X"), w, p, left, zero)
    case 'p' =>
      ShowsInteger(text, n, 16, false, sign, PrefixShown(flags, "0X"), if width == Unset then 8 else w, p, left,
                   zero || width == Unset)
    case _ => false
  }

  lemma SignedPrints(flags: string, width: Size, precision: Precision, conv: char, n: Word, length: nat)
    requires conv == 'd' || conv == 'i'
    ensures Prints(IntegerField(Meant(flags, width, precision, conv, length), n), flags, width, precision, conv, n)
  {
    var d := Meant(flags, width, precision, conv, length);
    FieldShows(n, 10, d.width, d.precision, d.flags.(sign := true));
  }

  lemma UnsignedPrints(flags: string, width: Size, precision: Precision, conv: char, n: Word, length: nat)
    requires conv == 'u' || conv == 'b' || conv == 'o' || conv == 'X'
    ensures Prints(IntegerField(Meant(flags, width, precision, conv, length), n), flags, width, precision, conv, n)
  {
    var d := Meant(flags, width, precision, conv, length);
    FieldShows(n, if conv == 'u' then 10 else if conv == 'b' then 2 else if conv == 'o' then 8 else 16,
               d.width, d.precision, d.flags);
  }

  lemma HexPrints(flags: string, width: Size, precision: Precision, conv: char, n: Word, length: nat)
    requires conv == 'x' || conv == 'p'
    ensures Prints(IntegerField(Meant(flags, width, precision, conv, length), n), flags, width, precision, conv, n)
  {
    var d := Meant(flags, width, precision, conv, length);
    if conv == 'x' {
      FieldShows(n, 16, d.width, d.precision, d.flags.(small := true));
    } else if width == Unset {
      FieldShows(n, 16, 8, d.precision, d.flags.(zeropad := true));
    } else {
      FieldShows(n, 16, d.width, d.precision, d.flags);
    }
  }

  /** An integer directive of any flags, width, precision and qualifier prints its number in the base and with
      the sign, prefix and padding its characters ask for; the format goes on behind it. */
  lemma IntegerDirective(fmt: string, flags: string, width: Size, precision: Precision, qualifier: string,
                         conv: char, rest: string, n: Word, args: seq<Arg>) returns (text: string)
    requires fmt != "" && fmt[0] == '%' && fmt[1..] == DirectiveText(flags, width, precision, qualifier, conv, rest)
    requires IsDirective(flags, width, qualifier, conv) && IsIntegerConversion(conv)
    ensures Format(fmt, SizeArgs(width) + ([Num(n)] + args)) == Prepend(text, Format(rest, args))
    ensures Prints(text, flags, width, precision, conv, n)
  {
    var length := IntegerWritten(fmt, flags, width, precision, qualifier, conv, rest, n, args);
    text := IntegerField(Meant(flags, width, precision, conv, length), n);
    FieldPrints(flags, width, precision, conv, n, length);
  }

  lemma IntegerWritten(fmt: string, flags: string, width: Size, precision: Precision, qualifier: string,
                       conv: char, rest: string, n: Word, args: seq<Arg>) returns (length: nat)
    requires fmt != "" && fmt[0] == '%' && fmt[1..] == DirectiveText(flags, width, precision, qualifier, conv, rest)
    requires IsDirective(flags, width, qualifier, conv) && IsIntegerConversion(conv)
    ensures Format(fmt, SizeArgs(width) + ([Num(n)] + args)) ==
      Prepend(IntegerField(Meant(flags, width, precision, conv, length), n), Format(rest, args))
  {
    var own := [Num(n)] + args;
    var d := Read(fmt, flags, width, precision, qualifier, conv, rest, own);
    IntegerConverted(d, n, args);
    ParsedPrints(fmt, d, rest, SizeArgs(width) + own, own, args, IntegerField(d, n));
    length := d.length;
  }

  lemma FieldPrints(flags: string, width: Size, precision: Precision, conv: char, n: Word, length: nat)
    requires IsIntegerConversion(conv)
    ensures Prints(IntegerField(Meant(flags, width, precision, conv, length), n), flags, width, precision, conv, n)
  {
    if conv == 'd' || conv == 'i' {
      SignedPrints(flags, width, precision, conv, n, length);
    } else if conv == 'x' || conv == 'p' {
      HexPrints(flags, width, precision, conv, n, length);
    } else {
      UnsignedPrints(flags, width, precision, conv, n, length);
    }
  }

  lemma IntegerConverted(d: Directive, n: Word, args: seq<Arg>)
    requires IsIntegerConversion(d.conv)
    ensures Convert(d, [Num(n)] + args) == Text(IntegerField(d, n), args)
  {
    assert ([Num(n)] + args)[1..] == args;
  }

  /** Contents in a field of spaces, at its left or right end. */
  function Padded(contents: string, width: int, left: bool): string {
    if left then contents + Repeat(' ', width - |contents|) else Repeat(' ', width - |contents|) + contents
  }

  /** "%c" prints the low byte of its argument as a character. */
  lemma CharDirective(fmt: string, flags: string, width: Size, precision: Precision, qualifier: string,
                      rest: string, n: Word, args: seq<Arg>)
    requires fmt != "" && fmt[0] == '%' && fmt[1..] == DirectiveText(flags, width, precision, qualifier, 'c', rest)
    requires IsDirective(flags, width, qualifier, 'c')
    ensures Format(fmt, SizeArgs(width) + ([Num(n)] + args)) ==
      Prepend(Padded([(n % 256) as char], SizeOf(width), '-' in flags || TurnsLeft(width)), Format(rest, args))
  {
    var own := [Num(n)] + args;
    var d := Read(fmt, flags, width, precision, qualifier, 'c', rest, own);
    CharConverted(d, n, args);
    ParsedPrints(fmt, d, rest, SizeArgs(width) + own, own, args, Padded([(n % 256) as char], d.width, d.flags.left));
  }

  lemma CharConverted(d: Directive, n: Word, args: seq<Arg>)
    requires d.conv == 'c'
    ensures Convert(d, [Num(n)] + args) == Text(Padded([(n % 256) as char], d.width, d.flags.left), args)
  {
    assert ([Num(n)] + args)[1..] == args;
    assert CharField((n % 256) as char, d.width, d.flags.left) == Padded([(n % 256) as char], d.width, d.flags.left);
  }

  /** "%s" prints its string, cut to the precision if there is one. */
  lemma StringDirective(fmt: string, flags: string, width: Size, precision: Precision, qualifier: string,
                        rest: string, s: string, args: seq<Arg>)
    requires fmt != "" && fmt[0] == '%' && fmt[1..] == DirectiveText(flags, width, precision, qualifier, 's', rest)
    requires IsDirective(flags, width, qualifier, 's')
    ensures Format(fmt, SizeArgs(width) + ([Str(s)] + args)) ==
      Prepend(Padded(Cut(s, precision), SizeOf(width), '-' in flags || TurnsLeft(width)), Format(rest, args))
  {
    var own := [Str(s)] + args;
    var d := Read(fmt, flags, width, precision, qualifier, 's', rest, own);
    StringConverted(d, precision, s, args);
    ParsedPrints(fmt, d, rest, SizeArgs(width) + own, own, args, Padded(Cut(s, precision), d.width, d.flags.left));
  }

  /** The first characters of s, as many as the precision allows. */
  function Cut(s: string, precision: Precision): string {
    if 0 <= PrecisionOf(precision) < |s| then s[..PrecisionOf(precision)] else s
  }

  lemma StringConverted(d: Directive, precision: Precision, s: string, args: seq<Arg>)
    requires d.conv == 's' && d.precision == PrecisionOf(precision)
    ensures Convert(d, [Str(s)] + args) == Text(Padded(Cut(s, precision), d.width, d.flags.left), args)
  {
    assert ([Str(s)] + args)[1..] == args;
    assert StrField(s, d.width, d.precision, d.flags.left) == Padded(Cut(s, precision), d.width, d.flags.left);
  }

  /** Any other character but n, f, m and r is no conversion: it is printed behind a percent sign, and a
      percent sign once, whatever flags, width and precision; no argument is taken but the width's. */
  lemma LiteralDirective(fmt: string, flags: string, width: Size, precision: Precision, qualifier: string,
                         conv: char, rest: string, args: seq<Arg>)
    requires fmt != "" && fmt[0] == '%' && fmt[1..] == DirectiveText(flags, width, precision, qualifier, conv, rest)
    requires IsDirective(flags, width, qualifier, conv) && !IsIntegerConversion(conv) && conv != '\0'
    requires conv != 'c' && conv != 's' && conv != 'n' && conv != 'f' && conv != 'm' && conv != 'r'
    ensures Format(fmt, SizeArgs(width) + args) ==
      Prepend(if conv == '%' then "%" else ['%', conv], Format(rest, args))
  {
    var d := Read(fmt, flags, width, precision, qualifier, conv, rest, args);
    LiteralConverted(d, args);
    ParsedPrints(fmt, d, rest, SizeArgs(width) + args, args, args, if conv == '%' then "%" else ['%', conv]);
  }

  lemma LiteralConverted(d: Directive, args: seq<Arg>)
    requires !IsIntegerConversion(d.conv) && d.conv != '\0'
    requires d.conv != 'c' && d.conv != 's' && d.conv != 'n' && d.conv != 'f' && d.conv != 'm' && d.conv != 'r'
    ensures Convert(d, args) == Text(if d.conv == '%' then "%" else ['%', d.conv], args)
  {
  }
}
