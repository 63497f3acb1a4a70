/** vsprintf.c: the directive parser, for %c, %s, %%, the integer conversions and malformed
    directives. */
module Printf {
  import opened Common
  import opened NumberFormat

  /** What va_arg can be handed. */
  datatype Arg = Num(n: Word) | Str(s: string)

  /** Text written so far and arguments left, or nothing: a conversion this model leaves out,
      or an argument that is missing or of the wrong kind. */
  datatype Printed = Text(text: string, args: seq<Arg>) | Undefined

  const NO_FLAGS := Flags(false, false, false, false, false, false, false)

  /** A 32-bit word read as int. */
  function AsInt(n: Word): int {
    if n >= 0x8000_0000 then n - U32 else n
  }

  // ----- one directive, from the character behind the '%'

  function WithFlag(flags: Flags, c: char): Flags {
    if c == '-' then flags.(left := true)
    else if c == '+' then flags.(plus := true)
    else if c == ' ' then flags.(space := true)
    else if c == '#' then flags.(special := true)
    else flags.(zeropad := true)
  }

  predicate IsFlag(c: char) {
    c == '-' || c == '+' || c == ' ' || c == '#' || c == '0'
  }

  /** How many flag characters s starts with ... */
  function FlagCount(s: string): (n: nat)
    ensures n <= |s| && (n < |s| ==> !IsFlag(s[n]))
  {
    if s != [] && IsFlag(s[0]) then 1 + FlagCount(s[1..]) else 0
  }

  /** ... and what they set. */
  function FlagsOf(flags: Flags, s: string): Flags
    decreases |s|
  {
    if s != [] && IsFlag(s[0]) then FlagsOf(WithFlag(flags, s[0]), s[1..]) else flags
  }

  /** A parsed directive: `length` characters behind the '%', the last of them `conv`; conv is
      0 when the format ended first. */
  datatype Directive = Directive(flags: Flags, width: int, precision: int, conv: char, length: nat)

  datatype Parsed = Ok(d: Directive, args: seq<Arg>) | Bad

  /** What the width or precision stage has read: the number and how many characters. */
  datatype Stage = Stage(flags: Flags, value: int, length: nat, args: seq<Arg>) | BadStage

  /** vsprintf.c:231-249. */
  function WidthStage(flags: Flags, s: string, args: seq<Arg>): (st: Stage)
    ensures st.Stage? ==> st.length <= |s|
  {
    if s != [] && IsDigit(s[0]) then Stage(flags, Value(s[..Lead(s)], 10), Lead(s), args)
    else if s != [] && s[0] == '*' then
      if args == [] || !args[0].Num? then BadStage else
      var w := AsInt(args[0].n);
      if w < 0 then Stage(flags.(left := true), -w, 1, args[1..]) else Stage(flags, w, 1, args[1..])
    else Stage(flags, -1, 0, args)
  }

  /** vsprintf.c:252-269. After ".*" the star is not skipped. */
  function PrecisionStage(flags: Flags, s: string, args: seq<Arg>): (st: Stage)
    ensures st.Stage? ==> st.length <= |s|
  {
    if s == [] || s[0] != '.' then Stage(flags, -1, 0, args)
    else if |s| > 1 && IsDigit(s[1]) then Stage(flags, Value(s[1..][..Lead(s[1..])], 10), 1 + Lead(s[1..]), args)
    else if |s| > 1 && s[1] == '*' then
      if args == [] || !args[0].Num? then BadStage else
      Stage(flags, Max(AsInt(args[0].n), 0), 1, args[1..])
    else Stage(flags, 0, 1, args)
  }

  predicate IsQualifier(c: char) {
    c == 'h' || c == 'l' || c == 'L'
  }

  /** vsprintf.c:271-276: an optional qualifier, then the conversion, from position k. */
  function ConversionAt(s: string, k: nat, flags: Flags, width: int, precision: int): (d: Directive)
    requires k <= |s|
    ensures d.length <= |s| && (d.conv != '\0' ==> d.length > 0)
  {
    var q := if k < |s| && IsQualifier(s[k]) then k + 1 else k;
    if q < |s| then Directive(flags, width, precision, s[q], q + 1)
    else Directive(flags, width, precision, '\0', |s|)
  }

  function AfterPrecision(s: string, k: nat, width: int, p: Stage): Parsed
    requires p.Stage? ==> k + p.length <= |s|
  {
    if p.BadStage? then Bad else Ok(ConversionAt(s, k + p.length, p.flags, width, p.value), p.args)
  }

  function AfterWidth(s: string, j: nat, w: Stage): Parsed
    requires w.Stage? ==> j + w.length <= |s|
  {
    if w.BadStage? then Bad else
    var k := j + w.length;
    AfterPrecision(s, k, w.value, PrecisionStage(w.flags, s[k..], w.args))
  }

  /** The three stages put together. */
  lemma Staged(s: string, j: nat, w: Stage, p: Stage, d: Directive)
    requires w.Stage? && j + w.length <= |s| && PrecisionStage(w.flags, s[j + w.length..], w.args) == p && p.Stage?
    requires ConversionAt(s, j + w.length + p.length, p.flags, w.value, p.value) == d
    ensures AfterWidth(s, j, w) == Ok(d, p.args)
  {
  }

  /** vsprintf.c:203-276. */
  function Parse(s: string, args: seq<Arg>): Parsed {
    var j := FlagCount(s);
    AfterWidth(s, j, WidthStage(FlagsOf(NO_FLAGS, s), s[j..], args))
  }

  lemma ParsedLength(s: string, args: seq<Arg>)
    requires Parse(s, args).Ok?
    ensures var d := Parse(s, args).d; d.length <= |s| && (d.conv != '\0' ==> d.length > 0)
  {
  }

  // ----- conversions

  /** vsprintf.c:281-293. */
  function CharField(c: char, width: int, left: bool): string {
    Repeat(' ', if left then 0 else width - 1) + [c] + Repeat(' ', if left then width - 1 else 0)
  }

  /** vsprintf.c:296-318. */
  function StrField(s: string, width: int, precision: int, left: bool): string {
    var len := if 0 <= precision < |s| then precision else |s|;
    Repeat(' ', if left then 0 else width - len) + s[..len] + Repeat(' ', if left then width - len else 0)
  }

  /** Both fields are as long as asked, or as long as their contents, which stand at the one
      end or the other. */
  lemma FieldsPadded(c: char, s: string, width: int, precision: int, left: bool)
    ensures |CharField(c, width, left)| == Max(width, 1)
    ensures CharField(c, width, left)[if left then 0 else Max(width, 1) - 1] == c
    ensures var shown := if precision < 0 then s else s[..if precision < |s| then precision else |s|];
      var field := StrField(s, width, precision, left);
      |field| == Max(width, |shown|) && (if left then field[..|shown|] else field[|field| - |shown|..]) == shown
  {
    var len := if 0 <= precision < |s| then precision else |s|;
    var field := StrField(s, width, precision, left);
    if left {
      assert field[..len] == s[..len];
    } else {
      assert field[|field| - len..] == s[..len];
    }
  }

  /** The integer conversions. */
  predicate IsInteger(conv: char) {
    || conv == 'o' || conv == 'p' || conv == 'x' || conv == 'X'
    || conv == 'd' || conv == 'i' || conv == 'u' || conv == 'b'
  }

  /** Conversions this model leaves out: pointers and floating point. */
  predicate IsLeftOut(conv: char) {
    conv == 'n' || conv == 'f' || conv == 'm' || conv == 'r'
  }

  function BaseOf(conv: char): nat {
    if conv == 'o' then 8 else if conv == 'b' then 2 else if (conv == 'p' || conv == 'x' || conv == 'X') then 16 else 10
  }

  /** vsprintf.c:321-356 and 373-376. */
  function IntegerField(d: Directive, n: Word): string {
    var flags := if d.conv == 'x' then d.flags.(small := true)
                 else if d.conv == 'd' || d.conv == 'i' then d.flags.(sign := true)
                 else if d.conv == 'p' && d.width == -1 then d.flags.(zeropad := true)
                 else d.flags;
    Field(n, BaseOf(d.conv), if d.conv == 'p' && d.width == -1 then 8 else d.width, d.precision, flags)
  }

  /** The kind of argument a conversion takes. */
  datatype Takes = OneNumber | OneString | Nothing | LeftOut

  function TakenBy(conv: char): Takes {
    if conv == 'c' || IsInteger(conv) then OneNumber
    else if conv == 's' then OneString
    else if IsLeftOut(conv) then LeftOut
    else Nothing
  }

  function NumberText(d: Directive, n: Word): string {
    if d.conv == 'c' then CharField((n % 256) as char, d.width, d.flags.left) else IntegerField(d, n)
  }

  /** vsprintf.c:399-411: "%%", a character that is no conversion, or the end of the format. */
  function LiteralText(conv: char): string {
    if conv == '%' then "%" else if conv == '\0' then "%" else ['%', conv]
  }

  /** What a parsed directive writes. */
  function Convert(d: Directive, args: seq<Arg>): Printed {
    match TakenBy(d.conv)
    case OneNumber =>
      if args == [] || !args[0].Num? then Undefined else Text(NumberText(d, args[0].n), args[1..])
    case OneString =>
      if args == [] || !args[0].Str? then Undefined
      else Text(StrField(args[0].s, d.width, d.precision, d.flags.left), args[1..])
    case Nothing => Text(LiteralText(d.conv), args)
    case LeftOut => Undefined
  }

  function Prepend(t: string, p: Printed): Printed {
    if p.Text? then Text(t + p.text, p.args) else Undefined
  }

  /** What vsprintf writes for a format and arguments. */
  function Format(fmt: string, args: seq<Arg>): Printed
    decreases |fmt|
  {
    if fmt == "" then Text("", args)
    else if fmt[0] != '%' then Prepend([fmt[0]], Format(fmt[1..], args))
    else
      var p := Parse(fmt[1..], args);
      if p.Bad? then Undefined else
      var c := Convert(p.d, p.args);
      if c.Undefined? then Undefined else
      Prepend(c.text, Format(fmt[1 + p.d.length..], c.args))
  }

  // ----- formatting is compositional

  /** The format is made of whole literals and directives. */
  predicate Whole(fmt: string, args: seq<Arg>)
    decreases |fmt|
  {
    fmt == "" ||
    if fmt[0] != '%' then Whole(fmt[1..], args) else
    var p := Parse(fmt[1..], args);
    p.Ok? && p.d.conv != '\0' && Convert(p.d, p.args).Text? && Whole(fmt[1 + p.d.length..], Convert(p.d, p.args).args)
  }

  lemma {:induction false} FlagsLocal(s: string, x: string, flags: Flags)
    requires FlagCount(s) < |s|
    ensures FlagCount(s + x) == FlagCount(s) && FlagsOf(flags, s + x) == FlagsOf(flags, s)
    decreases |s|
  {
    if IsFlag(s[0]) {
      assert (s + x)[1..] == s[1..] + x;
      FlagsLocal(s[1..], x, WithFlag(flags, s[0]));
    }
  }

  lemma {:induction false} LeadLocal(s: string, x: string)
    requires Lead(s) < |s|
    ensures Lead(s + x) == Lead(s) && (s + x)[..Lead(s)] == s[..Lead(s)]
    decreases |s|
  {
    if IsDigit(s[0]) {
      assert (s + x)[1..] == s[1..] + x;
      LeadLocal(s[1..], x);
    }
  }

  function MoreArgs(p: Parsed, y: seq<Arg>): Parsed {
    if p.Bad? then p else Ok(p.d, p.args + y)
  }

  function More(st: Stage, y: seq<Arg>): Stage {
    if st.BadStage? then st else st.(args := st.args + y)
  }

  lemma WidthLocal(flags: Flags, s: string, x: string, args: seq<Arg>, y: seq<Arg>)
    requires var w := WidthStage(flags, s, args); w.Stage? && w.length < |s|
    ensures WidthStage(flags, s + x, args + y) == More(WidthStage(flags, s, args), y)
  {
    if IsDigit(s[0]) {
      LeadLocal(s, x);
    }
    if args != [] {
      assert (args + y)[1..] == args[1..] + y;
    }
  }

  lemma PrecisionLocal(flags: Flags, s: string, x: string, args: seq<Arg>, y: seq<Arg>)
    requires var p := PrecisionStage(flags, s, args); p.Stage? && p.length < |s|
    ensures PrecisionStage(flags, s + x, args + y) == More(PrecisionStage(flags, s, args), y)
  {
    if s[0] == '.' && |s| > 1 {
      assert (s + x)[1..] == s[1..] + x;
      if IsDigit(s[1]) {
        LeadLocal(s[1..], x);
      }
    }
    if args != [] {
      assert (args + y)[1..] == args[1..] + y;
    }
  }

  lemma AfterWidthLocal(s: string, x: string, j: nat, w: Stage, y: seq<Arg>)
    requires w.Stage? && j + w.length < |s|
    requires AfterWidth(s, j, w).Ok? && AfterWidth(s, j, w).d.conv != '\0'
    ensures AfterWidth(s + x, j, More(w, y)) == MoreArgs(AfterWidth(s, j, w), y)
  {
    var k := j + w.length;
    var p := PrecisionStage(w.flags, s[k..], w.args);
    assert (s + x)[k..] == s[k..] + x;
    PrecisionLocal(w.flags, s[k..], x, w.args, y);
  }

  /** A complete directive parses the same whatever follows it. */
  lemma ParseLocal(s: string, x: string, args: seq<Arg>, y: seq<Arg>)
    requires Parse(s, args).Ok? && Parse(s, args).d.conv != '\0'
    ensures Parse(s + x, args + y) == MoreArgs(Parse(s, args), y)
  {
    var j := FlagCount(s);
    var flags := FlagsOf(NO_FLAGS, s);
    var w := WidthStage(flags, s[j..], args);
    FlagsLocal(s, x, NO_FLAGS);
    assert (s + x)[j..] == s[j..] + x;
    WidthLocal(flags, s[j..], x, args, y);
    AfterWidthLocal(s, x, j, w, y);
  }

  // ----- a precision given as ".*"

  /** After ".*" the star is the conversion. */
  lemma StarIsConversion(s: string, j: nat, w: Stage)
    requires w.Stage? && j + w.length + 2 <= |s| && s[j + w.length..][..2] == ".*"
    requires w.args != [] && w.args[0].Num?
    ensures var p := AfterWidth(s, j, w);
      p.Ok? && p.d.conv == '*' && p.d.length == j + w.length + 2 && Convert(p.d, p.args) == Text("%*", w.args[1..])
  {
    var k := j + w.length;
    assert s[k..][..2][0] == '.' && s[k..][..2][1] == '*';
    var p := Stage(w.flags, Max(AsInt(w.args[0].n), 0), 1, w.args[1..]);
    var d := Directive(w.flags, w.value, p.value, '*', k + 2);
    StarHere(s, k, w.flags, w.value, p.value);
    Staged(s, j, w, p, d);
    assert Convert(d, p.args) == Text("%*", p.args);
  }

  lemma StarHere(s: string, k: nat, flags: Flags, width: int, precision: int)
    requires k + 2 <= |s| && s[k..][1] == '*'
    ensures ConversionAt(s, k + 1, flags, width, precision) == Directive(flags, width, precision, '*', k + 2)
  {
  }

  lemma {:induction false} AllFlags(s: string, t: string, flags: Flags)
    requires (forall k :: 0 <= k < |s| ==> IsFlag(s[k])) && t != [] && !IsFlag(t[0])
    ensures FlagCount(s + t) == |s| && FlagsOf(flags, s + t) == FlagsOf(flags, s)
    decreases |s|
  {
    if s == [] {
      assert s + t == t;
    } else {
      assert (s + t)[1..] == s[1..] + t;
      AllFlags(s[1..], t, WithFlag(flags, s[0]));
    }
  }

  lemma {:induction false} AllDigits(s: string, t: string)
    requires (forall k :: 0 <= k < |s| ==> IsDigit(s[k])) && t != [] && !IsDigit(t[0])
    ensures Lead(s + t) == |s|
    decreases |s|
  {
    if s == [] {
      assert s + t == t;
    } else {
      assert (s + t)[1..] == s[1..] + t;
      AllDigits(s[1..], t);
    }
  }

  /** No width, a number, or a star, which takes an argument. */
  predicate IsWidth(s: string, args: seq<Arg>) {
    if s == "*" then |args| == 1 && args[0].Num?
    else args == [] && (s == "" || s[0] != '0') && forall k :: 0 <= k < |s| ==> IsDigit(s[k])
  }

  lemma WidthRead(flags: Flags, width: string, t: string, args: seq<Arg>, more: seq<Arg>)
    requires IsWidth(width, args) && t != [] && t[0] == '.'
    ensures var w := WidthStage(flags, width + t, args + more); w.Stage? && w.length == |width| && w.args == more
  {
    if width == "" {
      assert width + t == t;
    } else if width != "*" {
      AllDigits(width, t);
    }
    assert args == [] ==> args + more == more;
    assert |args| == 1 ==> (args + more)[1..] == more;
  }

  lemma DotStarParsed(flags: string, width: string, rest: string, widthArg: seq<Arg>, n: Word, args: seq<Arg>)
    requires (forall k :: 0 <= k < |flags| ==> IsFlag(flags[k])) && IsWidth(width, widthArg)
    ensures var p := Parse(flags + (width + (".*" + rest)), widthArg + ([Num(n)] + args));
      p.Ok? && p.d.length == |flags| + |width| + 2 && Convert(p.d, p.args) == Text("%*", args)
  {
    var t := ".*" + rest;
    var s := flags + (width + t);
    assert (width + t)[0] == if width == "" then '.' else width[0];
    AllFlags(flags, width + t, NO_FLAGS);
    assert s[|flags|..] == width + t;
    WidthRead(FlagsOf(NO_FLAGS, s), width, t, widthArg, [Num(n)] + args);
    assert s[|flags| + |width|..] == t && t[..2] == ".*";
    StarIsConversion(s, |flags|, WidthStage(FlagsOf(NO_FLAGS, s), width + t, widthArg + ([Num(n)] + args)));
    assert ([Num(n)] + args)[1..] == args;
  }

  /** Whatever the flags and the width, a precision given as ".*" takes its argument, "%*" is
      printed, and the format goes on behind the star. */
  lemma DotStarIsMalformed(flags: string, width: string, rest: string, widthArg: seq<Arg>, n: Word, args: seq<Arg>)
    requires (forall k :: 0 <= k < |flags| ==> IsFlag(flags[k])) && IsWidth(width, widthArg)
    ensures Format("%" + flags + width + ".*" + rest, widthArg + ([Num(n)] + args)) == Prepend("%*", Format(rest, args))
  {
    var fmt, all := "%" + flags + width + ".*" + rest, widthArg + ([Num(n)] + args);
    assert fmt[1..] == flags + (width + (".*" + rest));
    DotStarParsed(flags, width, rest, widthArg, n, args);
    var p := Parse(fmt[1..], all);
    assert fmt[1 + p.d.length..] == rest;
    FormatDirective(fmt, all, p.d, p.args, Text("%*", args));
  }

  lemma ConvertLocal(d: Directive, args: seq<Arg>, y: seq<Arg>)
    requires Convert(d, args).Text?
    ensures Convert(d, args + y) == Text(Convert(d, args).text, Convert(d, args).args + y)
  {
    if args != [] {
      assert (args + y)[1..] == args[1..] + y;
    }
  }

  /** Formatting a concatenation is concatenating what is formatted: the second format gets
      the arguments the first one leaves. */
  lemma {:induction false} FormatAppend(f: string, args: seq<Arg>, g: string, more: seq<Arg>)
    requires Whole(f, args)
    ensures Format(f, args).Text?
    ensures Format(f + g, args + more) == Prepend(Format(f, args).text, Format(g, Format(f, args).args + more))
    decreases |f|
  {
    if f == "" {
      assert f + g == g;
    } else if f[0] != '%' {
      FormatAppend(f[1..], args, g, more);
      AppendAtLiteral(f, args, g, more, Format(f[1..], args));
    } else {
      var d, left, c := FirstDirective(f, args);
      FormatAppend(f[1 + d.length..], c.args, g, more);
      AppendAtDirective(f, args, g, more, d, left, c, Format(f[1 + d.length..], c.args));
    }
  }

  /** What a whole format with a directive in front starts with. */
  lemma FirstDirective(f: string, args: seq<Arg>) returns (d: Directive, left: seq<Arg>, c: Printed)
    requires f != "" && f[0] == '%' && Whole(f, args)
    ensures Parse(f[1..], args) == Ok(d, left) && d.conv != '\0' && Convert(d, left) == c && c.Text?
    ensures 1 + d.length <= |f| && Whole(f[1 + d.length..], c.args)
  {
    ParsedLength(f[1..], args);
    d, left := Parse(f[1..], args).d, Parse(f[1..], args).args;
    c := Convert(d, left);
  }

  lemma FormatLiteral(fmt: string, args: seq<Arg>)
    requires fmt != "" && fmt[0] != '%'
    ensures Format(fmt, args) == Prepend([fmt[0]], Format(fmt[1..], args))
  {
  }

  lemma FormatLiteralThen(f: string, g: string, args: seq<Arg>)
    requires f != "" && f[0] != '%'
    ensures Format(f + g, args) == Prepend([f[0]], Format(f[1..] + g, args))
  {
    assert (f + g)[1..] == f[1..] + g;
    FormatLiteral(f + g, args);
  }

  lemma AppendAtLiteral(f: string, args: seq<Arg>, g: string, more: seq<Arg>, tail: Printed)
    requires f != "" && f[0] != '%' && tail == Format(f[1..], args) && tail.Text?
    requires Format(f[1..] + g, args + more) == Prepend(tail.text, Format(g, tail.args + more))
    ensures Format(f, args) == Text([f[0]] + tail.text, tail.args)
    ensures Format(f + g, args + more) == Prepend([f[0]] + tail.text, Format(g, tail.args + more))
  {
    FormatLiteral(f, args);
    FormatLiteralThen(f, g, args + more);
    PrependTwice([f[0]], tail.text, Format(g, tail.args + more));
  }

  lemma AppendAtDirective(f: string, args: seq<Arg>, g: string, more: seq<Arg>,
                          d: Directive, left: seq<Arg>, c: Printed, tail: Printed)
    requires f != "" && f[0] == '%'
    requires Parse(f[1..], args) == Ok(d, left) && d.conv != '\0' && Convert(d, left) == c && c.Text?
    requires tail == Format(f[1 + d.length..], c.args) && tail.Text?
    requires Format(f[1 + d.length..] + g, c.args + more) == Prepend(tail.text, Format(g, tail.args + more))
    ensures Format(f, args) == Text(c.text + tail.text, tail.args)
    ensures Format(f + g, args + more) == Prepend(c.text + tail.text, Format(g, tail.args + more))
  {
    FormatDirective(f, args, d, left, c);
    SameFirstDirective(f, args, g, more, d, left, c);
    FormatDirective(f + g, args + more, d, left + more, Text(c.text, c.args + more));
    PrependTwice(c.text, tail.text, Format(g, tail.args + more));
  }

  /** One turn of the loop at a directive. */
  lemma FormatDirective(fmt: string, args: seq<Arg>, d: Directive, rest: seq<Arg>, c: Printed)
    requires fmt != "" && fmt[0] == '%' && Parse(fmt[1..], args) == Ok(d, rest) && Convert(d, rest) == c && c.Text?
    ensures Format(fmt, args) == Prepend(c.text, Format(fmt[1 + d.length..], c.args))
  {
  }

  lemma SameFirstDirective(f: string, args: seq<Arg>, g: string, more: seq<Arg>, d: Directive, rest: seq<Arg>,
                           c: Printed)
    requires f != "" && Parse(f[1..], args) == Ok(d, rest) && d.conv != '\0' && Convert(d, rest) == c && c.Text?
    ensures Parse((f + g)[1..], args + more) == Ok(d, rest + more)
    ensures Convert(d, rest + more) == Text(c.text, c.args + more)
    ensures (f + g)[1 + d.length..] == f[1 + d.length..] + g
  {
    ParsedLength(f[1..], args);
    DropAppend(f, g, 1);
    DropAppend(f, g, 1 + d.length);
    ParseLocal(f[1..], g, args, more);
    ConvertLocal(d, rest, more);
  }

  lemma DropAppend(f: string, g: string, n: nat)
    requires n <= |f|
    ensures (f + g)[n..] == f[n..] + g
  {
  }

  lemma PrependTwice(a: string, b: string, p: Printed)
    ensures Prepend(a, Prepend(b, p)) == Prepend(a + b, p)
  {
    if p.Text? {
      assert a + (b + p.text) == a + b + p.text;
    }
  }

  /** A string with every '%' doubled. */
  function Doubled(s: string): string {
    if s == "" then "" else (if s[0] == '%' then "%%" else [s[0]]) + Doubled(s[1..])
  }

  /** Printing a string with every '%' doubled reproduces it and takes no argument. */
  lemma {:induction false} DoublingReproduces(s: string, args: seq<Arg>)
    ensures Format(Doubled(s), args) == Text(s, args)
  {
    if s != "" {
      var head := if s[0] == '%' then "%%" else [s[0]];
      OneChar(s[0]);
      FormatAppend(head, [], Doubled(s[1..]), args);
      DoublingReproduces(s[1..], args);
      assert [] + args == args && [s[0]] + s[1..] == s;
    }
  }

  lemma OneChar(c: char)
    ensures var head := if c == '%' then "%%" else [c];
      Whole(head, []) && Format(head, []) == Text([c], [])
  {
    if c == '%' {
      PercentParses();
      assert "%%"[1..] == "%" && "%%"[2..] == "";
      assert Convert(Parse("%", []).d, []) == Text("%", []);
      assert Prepend("%", Text("", [])) == Text("%", []);
    } else {
      assert [c][1..] == "" && Prepend([c], Text("", [])) == Text([c], []);
    }
  }

  lemma PercentParses()
    ensures Parse("%", []) == Ok(Directive(NO_FLAGS, -1, -1, '%', 1), [])
  {
    var s := "%";
    assert FlagCount(s) == 0 && FlagsOf(NO_FLAGS, s) == NO_FLAGS;
    assert s[0..] == s;
  }

  // ----- the loop itself

  /** A C string read at a position: NUL behind the last character. */
  function CharAt(s: string, i: nat): char {
    if i < |s| then s[i] else '\0'
  }

  /** What vsprintf leaves in the buffer, or the failed ASSERT of vsprintf.c:419. */
  datatype Outcome = Written(text: string) | TooLong | NotModelled

  /** vsprintf.c:201-225: the flag characters from position pos. */
  method ReadFlags(fmt: string, pos: nat) returns (flags: Flags, next: nat)
    requires pos <= |fmt|
    ensures next == pos + FlagCount(fmt[pos..]) && flags == FlagsOf(NO_FLAGS, fmt[pos..])
  {
    flags, next := NO_FLAGS, pos;
    while IsFlag(CharAt(fmt, next))
      invariant pos <= next <= |fmt|
      invariant next + FlagCount(fmt[next..]) == pos + FlagCount(fmt[pos..])
      invariant FlagsOf(flags, fmt[next..]) == FlagsOf(NO_FLAGS, fmt[pos..])
      decreases |fmt| - next
    {
      assert fmt[next..][1..] == fmt[next + 1..];
      flags := WithFlag(flags, fmt[next]);
      next := next + 1;
    }
  }

  /** vsprintf.c:228-249. */
  method ReadWidth(fmt: string, pos: nat, flags: Flags, args: seq<Arg>) returns (w: Stage)
    requires pos <= |fmt|
    ensures w == WidthStage(flags, fmt[pos..], args)
  {
    ghost var s := fmt[pos..];
    if IsDigit(CharAt(fmt, pos)) {
      var value, next, peak := SkipAtoi(fmt, pos);
      assert fmt[pos..next] == s[..Lead(s)];
      w := Stage(flags, value, next - pos, args);
    } else if CharAt(fmt, pos) == '*' {
      if args == [] || !args[0].Num? {
        return BadStage;
      }
      var value, flagged := AsInt(args[0].n), flags;
      if value < 0 {
        value := -value;
        flagged := flags.(left := true);
      }
      w := Stage(flagged, value, 1, args[1..]);
    } else {
      w := Stage(flags, -1, 0, args);
    }
  }

  /** vsprintf.c:252-269. */
  method ReadPrecision(fmt: string, pos: nat, flags: Flags, args: seq<Arg>) returns (p: Stage)
    requires pos <= |fmt|
    ensures p == PrecisionStage(flags, fmt[pos..], args)
  {
    ghost var s := fmt[pos..];
    var precision, next, left := -1, pos, args;
    if CharAt(fmt, next) == '.' {
      next := next + 1;
      if IsDigit(CharAt(fmt, next)) {
        assert fmt[next..] == s[1..];
        ghost var peak;
        precision, next, peak := SkipAtoi(fmt, next);
        assert fmt[pos + 1..next] == s[1..][..Lead(s[1..])];
      } else if CharAt(fmt, next) == '*' {
        if args == [] || !args[0].Num? {
          return BadStage;
        }
        precision, left := AsInt(args[0].n), args[1..];
      }
      if precision < 0 {
        precision := 0;
      }
    }
    p := Stage(flags, precision, next - pos, left);
  }

  /** vsprintf.c:281-293. */
  method WriteChar(str: string, c: char, width: int, left: bool) returns (out: string)
    ensures out == str + CharField(c, width, left)
  {
    var n;
    var w := width;
    out := str;
    if !left {
      out, n := Emit(out, ' ', w - 1);
      w := n + 1;
    }
    out := out + [c];
    out, n := Emit(out, ' ', w - 1);
  }

  /** vsprintf.c:296-318. */
  method WriteString(str: string, s: string, width: int, precision: int, left: bool) returns (out: string)
    ensures out == str + StrField(s, width, precision, left)
  {
    var n;
    var len, w := |s|, width;
    if 0 <= precision < len {
      len := precision;
    }
    out := str;
    if !left {
      out, n := Emit(out, ' ', w - len);
      w := n + len;
    }
    ghost var led := out;
    for i := 0 to len
      invariant out == led + s[..i]
    {
      out := out + [s[i]];
    }
    out, n := Emit(out, ' ', w - len);
  }

  /** The integer cases of vsprintf.c:321-376. */
  method WriteInteger(str: string, d: Directive, n: Word) returns (out: string)
    requires IsInteger(d.conv)
    ensures out == str + IntegerField(d, n)
  {
    var flags, width := d.flags, d.width;
    var field;
    match d.conv {
      case 'o' => field := Number(n, 8, width, d.precision, flags);
      case 'p' =>
        if width == -1 {
          width := 8;
          flags := flags.(zeropad := true);
        }
        field := Number(n, 16, width, d.precision, flags);
      case 'x' =>
        flags := flags.(small := true);
        field := Number(n, 16, width, d.precision, flags);
      case 'X' => field := Number(n, 16, width, d.precision, flags);
      case 'b' => field := Number(n, 2, width, d.precision, flags);
      case _ =>
        if d.conv != 'u' {
          flags := flags.(sign := true);
        }
        field := Number(n, 10, width, d.precision, flags);
    }
    out := str + field.value;
  }

  /** The switch of vsprintf.c:279-411. */
  method WriteConversion(str: string, d: Directive, args: seq<Arg>) returns (p: Printed)
    ensures p == Prepend(str, Convert(d, args))
  {
    if d.conv == 'c' || IsInteger(d.conv) {
      if args == [] || !args[0].Num? {
        return Undefined;
      }
      var out;
      if d.conv == 'c' {
        out := WriteChar(str, (args[0].n % 256) as char, d.width, d.flags.left);
      } else {
        out := WriteInteger(str, d, args[0].n);
      }
      p := Text(out, args[1..]);
    } else if d.conv == 's' {
      if args == [] || !args[0].Str? {
        return Undefined;
      }
      var out := WriteString(str, args[0].s, d.width, d.precision, d.flags.left);
      p := Text(out, args[1..]);
    } else if IsLeftOut(d.conv) {
      p := Undefined;
    } else {
      var out := str;
      if d.conv != '%' {
        out := out + "%";
      }
      if d.conv != '\0' {
        out := out + [d.conv];
      }
      p := Text(out, args);
    }
  }

  /** vsprintf.c:272-279, behind the precision. */
  method ReadQualified(fmt: string, pos: nat, k: nat, flags: Flags, width: int, precision: int) returns (d: Directive)
    requires pos + k <= |fmt|
    ensures d == ConversionAt(fmt[pos..], k, flags, width, precision)
  {
    var i := pos + k;
    if IsQualifier(CharAt(fmt, i)) {
      i := i + 1;
    }
    assert i < |fmt| ==> fmt[i] == fmt[pos..][i - pos];
    d := Directive(flags, width, precision, CharAt(fmt, i), if i < |fmt| then i + 1 - pos else |fmt| - pos);
  }

  /** vsprintf.c:252-276, behind the width. */
  method ReadConversion(fmt: string, pos: nat, j: nat, w: Stage) returns (d: Option<Directive>, left: seq<Arg>)
    requires w.Stage? && pos + j + w.length <= |fmt|
    ensures AfterWidth(fmt[pos..], j, w) == if d.Some? then Ok(d.value, left) else Bad
  {
    var k := j + w.length;
    assert fmt[pos + k..] == fmt[pos..][k..];
    var p := ReadPrecision(fmt, pos + k, w.flags, w.args);
    if p.BadStage? {
      return None, w.args;
    }
    var read := ReadQualified(fmt, pos, k + p.length, p.flags, w.value, p.value);
    Staged(fmt[pos..], j, w, p, read);
    d, left := Some(read), p.args;
  }

  /** vsprintf.c:200-276: the directive behind a '%'. */
  method ReadDirective(fmt: string, pos: nat, args: seq<Arg>) returns (d: Option<Directive>, left: seq<Arg>)
    requires pos <= |fmt|
    ensures Parse(fmt[pos..], args) == if d.Some? then Ok(d.value, left) else Bad
  {
    var flags, i := ReadFlags(fmt, pos);
    assert fmt[i..] == fmt[pos..][i - pos..];
    var w := ReadWidth(fmt, i, flags, args);
    if w.BadStage? {
      return None, args;
    }
    d, left := ReadConversion(fmt, pos, i - pos, w);
  }

  lemma TurnAtDirective(fmt: string, i: nat, next: nat, str: string, args: seq<Arg>, d: Directive, rest: seq<Arg>,
                        p: Printed)
    requires next == i + 1 + d.length && i < |fmt| && fmt[i] == '%' && Parse(fmt[i + 1..], args) == Ok(d, rest)
    requires p == Prepend(str, Convert(d, rest))
    ensures next <= |fmt|
    ensures p.Text? ==> Prepend(str, Format(fmt[i..], args)) == Prepend(p.text, Format(fmt[next..], p.args))
    ensures p.Undefined? ==> Format(fmt[i..], args) == Undefined
  {
    ParsedLength(fmt[i + 1..], args);
    FormatSuffix(fmt, i, next, args, d, rest);
    var c := Convert(d, rest);
    if c.Text? {
      PrependTwice(str, c.text, Format(fmt[next..], c.args));
    }
  }

  /** A turn of the loop, at position i of the format. */
  lemma FormatSuffix(fmt: string, i: nat, next: nat, args: seq<Arg>, d: Directive, rest: seq<Arg>)
    requires next == i + 1 + d.length <= |fmt| && fmt[i] == '%' && Parse(fmt[i + 1..], args) == Ok(d, rest)
    ensures Convert(d, rest).Undefined? ==> Format(fmt[i..], args) == Undefined
    ensures Convert(d, rest).Text? ==>
      Format(fmt[i..], args) == Prepend(Convert(d, rest).text, Format(fmt[next..], Convert(d, rest).args))
  {
    assert fmt[i..][1..] == fmt[i + 1..];
    assert fmt[i..][1 + d.length..] == fmt[next..];
    if Convert(d, rest).Text? {
      FormatDirective(fmt[i..], args, d, rest, Convert(d, rest));
    }
  }

  lemma TurnAtBadDirective(fmt: string, i: nat, args: seq<Arg>)
    requires i < |fmt| && fmt[i] == '%' && Parse(fmt[i + 1..], args) == Bad
    ensures Format(fmt[i..], args) == Undefined
  {
    assert fmt[i..][1..] == fmt[i + 1..];
  }

  /** One turn of the loop at a '%'. */
  method WriteDirective(fmt: string, i: nat, str: string, args: seq<Arg>) returns (next: nat, p: Printed)
    requires i < |fmt| && fmt[i] == '%'
    ensures p.Text? ==> i < next <= |fmt|
    ensures p.Text? ==> Prepend(str, Format(fmt[i..], args)) == Prepend(p.text, Format(fmt[next..], p.args))
    ensures p.Undefined? ==> Format(fmt[i..], args) == Undefined
  {
    var d, rest := ReadDirective(fmt, i + 1, args);
    if d.None? {
      TurnAtBadDirective(fmt, i, args);
      next, p := i, Undefined;
    } else {
      next, p := WriteParsed(fmt, i, str, args, d.value, rest);
    }
  }

  method WriteParsed(fmt: string, i: nat, str: string, ghost args: seq<Arg>, d: Directive, rest: seq<Arg>)
    returns (next: nat, p: Printed)
    requires i < |fmt| && fmt[i] == '%' && Parse(fmt[i + 1..], args) == Ok(d, rest)
    ensures p.Text? ==> i < next <= |fmt|
    ensures p.Text? ==> Prepend(str, Format(fmt[i..], args)) == Prepend(p.text, Format(fmt[next..], p.args))
    ensures p.Undefined? ==> Format(fmt[i..], args) == Undefined
  {
    p := WriteConversion(str, d, rest);
    next := i + 1 + d.length;
    TurnAtDirective(fmt, i, next, str, args, d, rest, p);
  }

  /** vsprintf.c:172-421: the loop over the format. */
  method Vsprintf(fmt: string, args: seq<Arg>) returns (r: Outcome)
    requires '\0' !in fmt
    ensures r == match Format(fmt, args)
                 case Undefined => NotModelled
                 case Text(text, _) => if |text| < 1024 then Written(text) else TooLong
  {
    var i, p := 0, Text("", args);
    while i < |fmt|
      invariant i <= |fmt| && p.Text?
      invariant Format(fmt, args) == Prepend(p.text, Format(fmt[i..], p.args))
    {
      if fmt[i] != '%' {
        assert fmt[i..][1..] == fmt[i + 1..];
        PrependTwice(p.text, [fmt[i]], Format(fmt[i + 1..], p.args));
        p := Text(p.text + [fmt[i]], p.args);
        i := i + 1;
      } else {
        i, p := WriteDirective(fmt, i, p.text, p.args);
        if p.Undefined? {
          return NotModelled;
        }
      }
    }
    r := if |p.text| < 1024 then Written(p.text) else TooLong;
  }
}
