/** PatternFormatter: a pattern is compiled to tokens, and the tokens are run against a message.

    Converting a time stamp to local time is a given function, a constant of the formatter. */
module Formatting {
  import opened Options

  // ----- messages -----

  datatype LogLevel = Trace | Debug | Info | Warn | Error | Critical | Off

  datatype SourceLocation = SourceLocation(file: string, line: int, function_: string)

  datatype LogMessage = LogMessage(
    timestamp: int,
    level: LogLevel,
    loggerName: string,
    threadId: nat,
    source: SourceLocation,
    payload: string)

  datatype TimestampParts = TimestampParts(
    year: int, month: int, day: int, hour: int, minute: int, second: int, millisecond: int)

  function LevelName(level: LogLevel): string {
    match level
    case Trace => "TRACE"
    case Debug => "DEBUG"
    case Info => "INFO"
    case Warn => "WARN"
    case Error => "ERROR"
    case Critical => "CRITICAL"
    case Off => "OFF"
  }

  // ----- integers -----

  function Digit(d: nat): char
    requires d < 10
  {
    (d as char) + '0'
  }

  /** The decimal digits of n without leading zeros, as std::to_chars writes them. */
  function Digits(n: nat): (s: string)
    ensures s != "" && AllDigits(s)
  {
    if n < 10 then [Digit(n)] else Digits(n / 10) + [Digit(n % 10)]
  }

  function Decimal(value: int): string {
    if value < 0 then "-" + Digits(-value) else Digits(value)
  }

  function Zeros(n: int): string {
    if n <= 0 then "" else Zeros(n - 1) + "0"
  }

  function Padded(value: int, width: int): string {
    Zeros(width - |Decimal(value)|) + Decimal(value)
  }

  /** Reading digits back. */
  function Parse(s: string): nat
    requires AllDigits(s)
  {
    if s == "" then 0 else 10 * Parse(s[..|s| - 1]) + (s[|s| - 1] as int - '0' as int)
  }

  predicate AllDigits(s: string) {
    forall i | 0 <= i < |s| :: '0' <= s[i] <= '9'
  }

  lemma ParseEnd(s: string, c: char)
    requires AllDigits(s) && '0' <= c <= '9'
    ensures AllDigits(s + [c]) && Parse(s + [c]) == 10 * Parse(s) + (c as int - '0' as int)
  {
    assert (s + [c])[..|s|] == s;
  }

  lemma {:induction false} ParseDigits(n: nat)
    ensures Parse(Digits(n)) == n
  {
    if n < 10 {
      ParseEnd([], Digit(n));
      assert [] + [Digit(n)] == [Digit(n)];
    } else {
      ParseDigits(n / 10);
      ParseEnd(Digits(n / 10), Digit(n % 10));
    }
  }

  lemma {:induction false} ZerosAreZero(n: int)
    ensures |Zeros(n)| == (if n <= 0 then 0 else n) && AllDigits(Zeros(n)) && Parse(Zeros(n)) == 0
    decreases if n < 0 then 0 else n
  {
    if n > 0 {
      ZerosAreZero(n - 1);
      ParseEnd(Zeros(n - 1), '0');
    }
  }

  lemma SplitLast(before: string, s: string)
    requires s != ""
    ensures s == s[..|s| - 1] + [s[|s| - 1]] && before + s == (before + s[..|s| - 1]) + [s[|s| - 1]]
  {
  }

  lemma {:induction false} LeadingZeros(zeros: string, s: string)
    requires AllDigits(zeros) && AllDigits(s) && Parse(zeros) == 0
    ensures AllDigits(zeros + s) && Parse(zeros + s) == Parse(s)
  {
    if s == "" {
      assert zeros + s == zeros;
    } else {
      var k := |s| - 1;
      SplitLast(zeros, s);
      LeadingZeros(zeros, s[..k]);
      ParseEnd(zeros + s[..k], s[k]);
      ParseEnd(s[..k], s[k]);
    }
  }

  /** Reading a number back: zeros, then an optional minus sign, then digits. */
  function Read(s: string): Option<int> {
    if AllDigits(s) then Some(Parse(s))
    else if s[0] == '0' then Read(s[1..])
    else if s[0] == '-' && AllDigits(s[1..]) then Some(0 - Parse(s[1..]))
    else None
  }

  lemma {:induction false} ReadAfterZeros(zeros: string, s: string)
    requires forall i | 0 <= i < |zeros| :: zeros[i] == '0'
    requires s != "" && s[0] == '-' && AllDigits(s[1..])
    ensures Read(zeros + s) == Some(0 - Parse(s[1..]))
  {
    var all := zeros + s;
    assert all[|zeros|] == '-' && !AllDigits(all);
    if zeros == "" {
      assert all == s;
    } else {
      assert all[1..] == zeros[1..] + s;
      ReadAfterZeros(zeros[1..], s);
    }
  }

  lemma {:induction false} ZerosOnly(n: int)
    ensures forall i | 0 <= i < |Zeros(n)| :: Zeros(n)[i] == '0'
    decreases if n < 0 then 0 else n
  {
    if n > 0 { ZerosOnly(n - 1); }
  }

  /** What AppendInteger writes, for numbers of either sign, reads back as the number, fills the width,
      and has no more zeros than that needs. */
  lemma PaddedReadsBack(value: int, width: int)
    ensures Read(Padded(value, width)) == Some(value)
    ensures |Padded(value, width)| >= width
    ensures |Padded(value, width)| > width ==> Padded(value, width) == Decimal(value)
  {
    PaddedLength(value, width);
    if value >= 0 { NaturalReadsBack(value, width); } else { NegativeReadsBack(-value, width); }
  }

  lemma PaddedLength(value: int, width: int)
    ensures |Padded(value, width)| >= width
    ensures |Padded(value, width)| > width ==> Padded(value, width) == Decimal(value)
  {
    var text := Decimal(value);
    var zeros := Zeros(width - |text|);
    ZerosAreZero(width - |text|);
    assert zeros == "" ==> zeros + text == text;
  }

  lemma NegativeReadsBack(value: nat, width: int)
    requires value > 0
    ensures Read(Padded(0 - value, width)) == Some(0 - value)
  {
    var digits := Digits(value);
    assert ("-" + digits)[1..] == digits && Decimal(0 - value) == "-" + digits;
    ZerosOnly(width - |Decimal(0 - value)|);
    ReadAfterZeros(Zeros(width - |Decimal(0 - value)|), "-" + digits);
    ParseDigits(value);
  }

  lemma NaturalReadsBack(value: nat, width: int)
    ensures AllDigits(Padded(value, width)) && Parse(Padded(value, width)) == value
  {
    var digits := Digits(value);
    var zeros := Zeros(width - |digits|);
    PaddedParts(value, width);
    ZerosAreZero(width - |digits|);
    ParseDigits(value);
    PaddedText(zeros, digits, width);
  }

  lemma PaddedParts(value: nat, width: int)
    ensures Padded(value, width) == Zeros(width - |Digits(value)|) + Digits(value)
  {
  }

  lemma PaddedText(zeros: string, digits: string, width: int)
    requires AllDigits(zeros) && AllDigits(digits) && Parse(zeros) == 0
    requires |zeros| == if width <= |digits| then 0 else width - |digits|
    ensures AllDigits(zeros + digits) && Parse(zeros + digits) == Parse(digits)
    ensures |zeros + digits| >= width && (|zeros + digits| > width ==> zeros + digits == digits)
  {
    LeadingZeros(zeros, digits);
  }

  /** AppendInteger: zeros up to the width, then the digits. */
  method AppendInteger(output: string, value: int, width: int) returns (output': string)
    ensures output' == output + Padded(value, width)
  {
    output' := output;
    var buffer := Decimal(value);
    var index := |buffer|;
    while index < width
      invariant |buffer| <= index
      invariant index <= width || index == |buffer|
      invariant output' == output + Zeros(index - |buffer|)
    {
      output' := output' + "0";
      index := index + 1;
    }
    output' := output' + buffer;
  }

  // ----- file names -----

  predicate IsSlash(c: char) { c == '/' || c == '\\' }

  /** The position after the last slash of either kind, or 0. */
  function AfterSlash(path: string): (k: nat)
    ensures k <= |path|
  {
    if path == "" then 0
    else if IsSlash(path[|path| - 1]) then |path|
    else AfterSlash(path[..|path| - 1])
  }

  function BaseName(path: string): string {
    path[AfterSlash(path)..]
  }

  /** The base name is the longest suffix without a slash. */
  lemma {:induction false} BaseNameIsLast(path: string)
    ensures var k := |path| - |BaseName(path)|;
            && k >= 0 && path[k..] == BaseName(path)
            && (forall i | k <= i < |path| :: !IsSlash(path[i]))
            && (k > 0 ==> IsSlash(path[k - 1]))
  {
    if path != "" && !IsSlash(path[|path| - 1]) {
      var before := path[..|path| - 1];
      BaseNameIsLast(before);
      assert forall i | 0 <= i < |before| :: before[i] == path[i];
    }
  }

  // ----- patterns -----

  datatype Field =
    | Year | Month | Day | Hour | Minute | Second | Millisecond
    | Level | LoggerName | ThreadId | Payload | SourceFile | SourceLine | SourceFunction

  datatype Token = Literal(text: string) | FieldToken(field: Field)

  const DEFAULT_PATTERN := "%Y-%m-%d %H:%M:%S.%e [%l] [%n] [tid=%t] %v"

  function FieldOf(specifier: char): Option<Field> {
    match specifier
    case 'Y' => Some(Year)
    case 'm' => Some(Month)
    case 'd' => Some(Day)
    case 'H' => Some(Hour)
    case 'M' => Some(Minute)
    case 'S' => Some(Second)
    case 'e' => Some(Millisecond)
    case 'l' => Some(Level)
    case 'n' => Some(LoggerName)
    case 't' => Some(ThreadId)
    case 'v' => Some(Payload)
    case 's' => Some(SourceFile)
    case '#' => Some(SourceLine)
    case '!' => Some(SourceFunction)
    case _ => None
  }

  predicate IsTimeField(field: Field) {
    field.Year? || field.Month? || field.Day? || field.Hour? || field.Minute? || field.Second? || field.Millisecond?
  }

  // ----- the meaning of a pattern, without tokens -----

  function RenderTime(field: Field, parts: TimestampParts): string
    requires IsTimeField(field)
  {
    match field
    case Year => Padded(parts.year + 1900, 4)
    case Month => Padded(parts.month + 1, 2)
    case Day => Padded(parts.day, 2)
    case Hour => Padded(parts.hour, 2)
    case Minute => Padded(parts.minute, 2)
    case Second => Padded(parts.second, 2)
    case Millisecond => Padded(parts.millisecond, 3)
  }

  predicate IsSourceField(field: Field) { field.SourceFile? || field.SourceLine? || field.SourceFunction? }

  function RenderSource(field: Field, source: SourceLocation): string
    requires IsSourceField(field)
  {
    match field
    case SourceFile => BaseName(source.file)
    case SourceLine => if source.line > 0 then Padded(source.line, 0) else ""
    case SourceFunction => source.function_
  }

  function RenderName(field: Field, m: LogMessage): string
    requires !IsTimeField(field) && !IsSourceField(field)
  {
    match field
    case Level => LevelName(m.level)
    case LoggerName => m.loggerName
    case ThreadId => Padded(m.threadId, 0)
    case Payload => m.payload
  }

  function RenderField(field: Field, m: LogMessage, parts: TimestampParts): string {
    if IsTimeField(field) then RenderTime(field, parts)
    else if IsSourceField(field) then RenderSource(field, m.source)
    else RenderName(field, m)
  }

  type Renderer = Field -> string

  function RendererOf(m: LogMessage, parts: TimestampParts): Renderer {
    field => RenderField(field, m, parts)
  }

  /** The text of a pattern, read character by character.  `plus` is what a %+ stands for; inside that
      text a %+ stands for itself. */
  function Direct(pattern: string, plus: Option<string>, render: Renderer): string
    decreases plus.Some?, |pattern|
  {
    if pattern == "" then ""
    else if pattern[0] != '%' then [pattern[0]] + Direct(pattern[1..], plus, render)
    else if |pattern| == 1 then "%"
    else DirectSpecifier(pattern[1], plus, render) + Direct(pattern[2..], plus, render)
  }

  function DirectSpecifier(c: char, plus: Option<string>, render: Renderer): string
    decreases plus.Some?, 0
  {
    if c == '%' then "%"
    else if c == '+' then (if plus.Some? then Direct(plus.value, None, render) else "%+")
    else match FieldOf(c)
         case Some(field) => render(field)
         case None => ['%', c]
  }

  // ----- compilation -----

  function FlushLiteral(literal: string): seq<Token> {
    if literal == "" then [] else [Literal(literal)]
  }

  /** The tokens of the rest of a pattern, when `literal` is still pending. */
  function Compile(rest: string, literal: string, plus: Option<string>): seq<Token>
    decreases plus.Some?, |rest|
  {
    if rest == "" then FlushLiteral(literal)
    else if rest[0] != '%' then Compile(rest[1..], literal + [rest[0]], plus)
    else if |rest| == 1 then FlushLiteral(literal + "%")
    else if rest[1] == '%' then Compile(rest[2..], literal + "%", plus)
    else if rest[1] == '+' then
      FlushLiteral(literal)
      + (if plus.Some? then Compile(plus.value, "", None) + Compile(rest[2..], "", plus)
         else Compile(rest[2..], "%+", plus))
    else match FieldOf(rest[1])
         case Some(field) => FlushLiteral(literal) + [FieldToken(field)] + Compile(rest[2..], "", plus)
         case None => Compile(rest[2..], literal + ['%', rest[1]], plus)
  }

  function RenderToken(token: Token, render: Renderer): string {
    match token
    case Literal(text) => text
    case FieldToken(field) => render(field)
  }

  /** What the tokens produce. */
  function Interpret(tokens: seq<Token>, render: Renderer): string {
    if tokens == [] then "" else Interpret(tokens[..|tokens| - 1], render) + RenderToken(tokens[|tokens| - 1], render)
  }

  lemma {:induction false} InterpretConcat(a: seq<Token>, b: seq<Token>, render: Renderer)
    ensures Interpret(a + b, render) == Interpret(a, render) + Interpret(b, render)
  {
    if b == [] {
      assert a + b == a;
    } else {
      var n := |b| - 1;
      assert a + b == (a + b[..n]) + [b[n]] && b == b[..n] + [b[n]];
      InterpretEnd(a + b[..n], b[n], render);
      InterpretEnd(b[..n], b[n], render);
      InterpretConcat(a, b[..n], render);
      JoinTexts(Interpret(a, render), Interpret(b[..n], render), RenderToken(b[n], render));
    }
  }

  lemma InterpretEnd(tokens: seq<Token>, token: Token, render: Renderer)
    ensures Interpret(tokens + [token], render) == Interpret(tokens, render) + RenderToken(token, render)
  {
    assert (tokens + [token])[..|tokens|] == tokens;
  }

  lemma InterpretOne(token: Token, render: Renderer)
    ensures Interpret([token], render) == RenderToken(token, render)
  {
    assert [token][..0] == [];
  }

  lemma InterpretFlush(literal: string, tokens: seq<Token>, render: Renderer)
    ensures Interpret(FlushLiteral(literal) + tokens, render) == literal + Interpret(tokens, render)
    ensures Interpret(FlushLiteral(literal), render) == literal
  {
    InterpretOne(Literal(literal), render);
    InterpretConcat(FlushLiteral(literal), tokens, render);
  }

  lemma InterpretField(literal: string, field: Field, tokens: seq<Token>, render: Renderer)
    ensures Interpret(FlushLiteral(literal) + [FieldToken(field)] + tokens, render)
            == literal + render(field) + Interpret(tokens, render)
  {
    InterpretFlush(literal, [FieldToken(field)], render);
    InterpretOne(FieldToken(field), render);
    InterpretConcat(FlushLiteral(literal) + [FieldToken(field)], tokens, render);
  }

  /** Compilation preserves meaning: the pending literal, then the rest read directly. */
  lemma {:induction false} CompileIsFaithful(rest: string, literal: string, plus: Option<string>, render: Renderer)
    ensures Interpret(Compile(rest, literal, plus), render) == literal + Direct(rest, plus, render)
    decreases plus.Some?, |rest|, 1
  {
    if rest == "" {
      InterpretFlush(literal, [], render);
    } else if rest[0] != '%' {
      CompileIsFaithful(rest[1..], literal + [rest[0]], plus, render);
    } else if |rest| == 1 {
      InterpretFlush(literal + "%", [], render);
    } else if rest[1] == '%' {
      CompileIsFaithful(rest[2..], literal + "%", plus, render);
    } else if rest[1] == '+' {
      PlusIsFaithful(rest, literal, plus, render);
    } else {
      SpecifierIsFaithful(rest, literal, plus, render);
    }
  }

  lemma {:induction false} SpecifierIsFaithful(rest: string, literal: string, plus: Option<string>, render: Renderer)
    requires |rest| >= 2 && rest[0] == '%' && rest[1] != '%' && rest[1] != '+'
    ensures Interpret(Compile(rest, literal, plus), render) == literal + Direct(rest, plus, render)
    decreases plus.Some?, |rest|, 0
  {
    var after := Direct(rest[2..], plus, render);
    match FieldOf(rest[1])
    case Some(field) =>
      CompileIsFaithful(rest[2..], "", plus, render);
      InterpretField(literal, field, Compile(rest[2..], "", plus), render);
      JoinTexts(literal, render(field), after);
      DirectAt(rest, render(field), plus, render);
    case None =>
      CompileIsFaithful(rest[2..], literal + ['%', rest[1]], plus, render);
      JoinTexts(literal, ['%', rest[1]], after);
      DirectAt(rest, ['%', rest[1]], plus, render);
  }

  lemma DirectAt(rest: string, text: string, plus: Option<string>, render: Renderer)
    requires |rest| >= 2 && rest[0] == '%' && DirectSpecifier(rest[1], plus, render) == text
    ensures Direct(rest, plus, render) == text + Direct(rest[2..], plus, render)
  {
  }

  lemma JoinTexts(a: string, b: string, c: string)
    ensures (a + b) + c == a + (b + c) && "" + c == c
  {
  }

  lemma InterpretExpansion(literal: string, expansion: seq<Token>, tokens: seq<Token>, render: Renderer)
    ensures Interpret(FlushLiteral(literal) + (expansion + tokens), render)
            == literal + (Interpret(expansion, render) + Interpret(tokens, render))
  {
    InterpretConcat(expansion, tokens, render);
    InterpretFlush(literal, expansion + tokens, render);
  }

  lemma {:induction false} PlusIsFaithful(rest: string, literal: string, plus: Option<string>, render: Renderer)
    requires |rest| >= 2 && rest[0] == '%' && rest[1] == '+'
    ensures Interpret(Compile(rest, literal, plus), render) == literal + Direct(rest, plus, render)
    decreases plus.Some?, |rest|, 0
  {
    if plus.Some? {
      CompileIsFaithful(rest[2..], "", plus, render);
      CompileIsFaithful(plus.value, "", None, render);
      InterpretExpansion(literal, Compile(plus.value, "", None), Compile(rest[2..], "", plus), render);
      assert "" + Direct(rest[2..], plus, render) == Direct(rest[2..], plus, render);
      assert "" + Direct(plus.value, None, render) == Direct(plus.value, None, render);
      assert Direct(rest, plus, render) == Direct(plus.value, None, render) + Direct(rest[2..], plus, render);
    } else {
      CompileIsFaithful(rest[2..], "%+", plus, render);
      InterpretFlush(literal, Compile(rest[2..], "%+", plus), render);
    }
  }

  // ----- %+ is the default pattern written in its place -----

  /** Reading p left to right ends exactly at its end, not inside a specifier. */
  predicate Lexed(p: string) {
    p == "" || (if p[0] != '%' then Lexed(p[1..]) else |p| >= 2 && Lexed(p[2..]))
  }

  /** The literal still pending after a text without %+, or None if there is a %+ or half a specifier. */
  function Leftover(p: string, literal: string): Option<string> {
    if p == "" then Some(literal)
    else if p[0] != '%' then Leftover(p[1..], literal + [p[0]])
    else if |p| == 1 || p[1] == '+' then None
    else if p[1] == '%' then Leftover(p[2..], literal + "%")
    else match FieldOf(p[1])
         case Some(_) => Leftover(p[2..], "")
         case None => Leftover(p[2..], literal + ['%', p[1]])
  }

  /** A text that leaves nothing pending compiles to the same tokens wherever it stands. */
  lemma {:induction false} CleanTextInlines(p: string, literal: string, after: string, plus: Option<string>)
    requires Leftover(p, literal) == Some("")
    ensures Compile(p + after, literal, plus) == Compile(p, literal, None) + Compile(after, "", plus)
  {
    if p == "" {
      assert p + after == after;
    } else if p[0] != '%' {
      CleanTextInlines(p[1..], literal + [p[0]], after, plus);
      assert (p + after)[1..] == p[1..] + after;
    } else if p[1] == '%' {
      CleanTextInlines(p[2..], literal + "%", after, plus);
      assert (p + after)[2..] == p[2..] + after;
    } else {
      assert (p + after)[2..] == p[2..] + after;
      match FieldOf(p[1])
      case Some(field) =>
        CleanTextInlines(p[2..], "", after, plus);
      case None =>
        CleanTextInlines(p[2..], literal + ['%', p[1]], after, plus);
    }
  }

  lemma {:induction false} SamePrefix(p: string, x: string, y: string, literal: string, plus: Option<string>)
    requires Lexed(p) && forall l :: Compile(x, l, plus) == Compile(y, l, plus)
    ensures Compile(p + x, literal, plus) == Compile(p + y, literal, plus)
  {
    if p == "" {
      assert p + x == x && p + y == y;
    } else if p[0] != '%' {
      SamePrefix(p[1..], x, y, literal + [p[0]], plus);
      assert (p + x)[1..] == p[1..] + x && (p + y)[1..] == p[1..] + y;
    } else {
      assert (p + x)[2..] == p[2..] + x && (p + y)[2..] == p[2..] + y;
      SamePrefix(p[2..], x, y, "", plus);
      SamePrefix(p[2..], x, y, "%+", plus);
      SamePrefix(p[2..], x, y, literal + "%", plus);
      SamePrefix(p[2..], x, y, literal + ['%', p[1]], plus);
    }
  }

  /** A field specifier and plain text after it leave exactly that text pending. */
  lemma SkipField(chunk: string, rest: string, literal: string)
    requires |chunk| >= 2 && chunk[0] == '%' && FieldOf(chunk[1]).Some?
    requires forall k | 2 <= k < |chunk| :: chunk[k] != '%'
    ensures Leftover(chunk + rest, literal) == Leftover(rest, chunk[2..])
  {
    assert (chunk + rest)[2..] == chunk[2..] + rest;
    SkipText(chunk[2..], rest, "");
    assert "" + chunk[2..] == chunk[2..];
  }

  lemma {:induction false} SkipText(text: string, rest: string, literal: string)
    requires forall k | 0 <= k < |text| :: text[k] != '%'
    ensures Leftover(text + rest, literal) == Leftover(rest, literal + text)
  {
    if text == "" {
      assert text + rest == rest && literal + text == literal;
    } else {
      SkipText(text[1..], rest, literal + [text[0]]);
      assert (text + rest)[1..] == text[1..] + rest && literal + [text[0]] + text[1..] == literal + text;
    }
  }

  // the default pattern in pieces

  lemma DateLiteral()
    ensures "%Y-%m-%d " == "%Y-" + "%m-" + "%d "
  {
  }

  lemma HourLiteral()
    ensures "%H:%M:" == "%H:" + "%M:"
  {
  }

  lemma SecondLiteral()
    ensures "%S.%e [" == "%S." + "%e ["
  {
  }

  lemma LevelLiteral()
    ensures "%l] [%n] [tid=" == "%l] [" + "%n] [tid="
  {
  }

  lemma DefaultPieces(text: string, last: string)
    requires text == DEFAULT_PATTERN && last == "%v"
    ensures text == "%Y-%m-%d " + ("%H:%M:" + ("%S.%e [" + ("%l] [%n] [tid=" + ("%t] " + last))))
  {
  }

  lemma Split2(a: string, b: string, rest: string)
    ensures (a + b) + rest == a + (b + rest)
  {
  }

  lemma Split3(a: string, b: string, c: string, rest: string)
    ensures (a + b + c) + rest == a + (b + (c + rest))
  {
  }

  lemma DateIsClean(rest: string, literal: string)
    ensures Leftover("%Y-%m-%d " + rest, literal) == Leftover(rest, " ")
  {
    DateLiteral();
    Split3("%Y-", "%m-", "%d ", rest);
    SkipField("%Y-", "%m-" + ("%d " + rest), literal);
    SkipField("%m-", "%d " + rest, "-");
    SkipField("%d ", rest, "-");
  }

  lemma HourIsClean(rest: string, literal: string)
    ensures Leftover("%H:%M:" + rest, literal) == Leftover(rest, ":")
  {
    HourLiteral();
    Split2("%H:", "%M:", rest);
    SkipField("%H:", "%M:" + rest, literal);
    SkipField("%M:", rest, ":");
  }

  lemma SecondIsClean(rest: string, literal: string)
    ensures Leftover("%S.%e [" + rest, literal) == Leftover(rest, " [")
  {
    SecondLiteral();
    Split2("%S.", "%e [", rest);
    SkipField("%S.", "%e [" + rest, literal);
    SkipField("%e [", rest, ".");
  }

  lemma LevelIsClean(rest: string, literal: string)
    ensures Leftover("%l] [%n] [tid=" + rest, literal) == Leftover(rest, "] [tid=")
  {
    LevelLiteral();
    Split2("%l] [", "%n] [tid=", rest);
    SkipField("%l] [", "%n] [tid=" + rest, literal);
    SkipField("%n] [tid=", rest, "] [");
  }

  lemma ThreadIsClean(last: string, literal: string)
    requires last == "%v"
    ensures Leftover("%t] " + last, literal) == Some("")
  {
    SkipField("%t] ", last, literal);
    SkipField(last, "", "] ");
    assert last + "" == last;
  }

  lemma DefaultIsClean(p: string, literal: string)
    requires p == DEFAULT_PATTERN
    ensures Leftover(p, literal) == Some("")
  {
    var last := "%v";
    DefaultPieces(p, last);
    ThreadIsClean(last, "] [tid=");
    LevelIsClean("%t] " + last, " [");
    SecondIsClean("%l] [%n] [tid=" + ("%t] " + last), ":");
    HourIsClean("%S.%e [" + ("%l] [%n] [tid=" + ("%t] " + last)), " ");
    DateIsClean("%H:%M:" + ("%S.%e [" + ("%l] [%n] [tid=" + ("%t] " + last))), literal);
  }

  lemma DefaultBegins(text: string)
    requires text == DEFAULT_PATTERN
    ensures |text| >= 2 && text[0] == '%' && FieldOf(text[1]).Some?
  {
    assert text[1] == 'Y';
  }

  /** A %+ that is read as a specifier gives the tokens of the default pattern written in its place. */
  lemma PlusIsDefault(before: string, after: string, text: string)
    requires Lexed(before) && text == DEFAULT_PATTERN
    ensures Compile(before + ("%+" + after), "", Some(text)) == Compile(before + (text + after), "", Some(text))
  {
    DefaultIsClean(text, "");
    DefaultBegins(text);
    PlusIsAnyText(before, after, text);
  }

  lemma PlusIsAnyText(before: string, after: string, text: string)
    requires Lexed(before) && |text| >= 2 && text[0] == '%' && FieldOf(text[1]).Some? && Leftover(text, "") == Some("")
    ensures Compile(before + ("%+" + after), "", Some(text)) == Compile(before + (text + after), "", Some(text))
  {
    forall l ensures Compile("%+" + after, l, Some(text)) == Compile(text + after, l, Some(text)) {
      PlusExpands(text, after, l);
    }
    SamePrefix(before, "%+" + after, text + after, "", Some(text));
  }

  lemma PlusExpands(text: string, after: string, l: string)
    requires |text| >= 2 && text[0] == '%' && FieldOf(text[1]).Some? && Leftover(text, "") == Some("")
    ensures Compile("%+" + after, l, Some(text)) == Compile(text + after, l, Some(text))
  {
    assert ("%+" + after)[2..] == after;
    CleanTextInlines(text, l, after, Some(text));
  }

  lemma Regroup(a: seq<Token>, b: seq<Token>, c: seq<Token>, d: seq<Token>)
    ensures (a + b + c) + d == a + (b + (c + d))
    ensures (a + b) + d == a + (b + d)
  {
  }

  lemma InterpretSnoc(tokens: seq<Token>, i: nat, render: Renderer)
    requires i < |tokens|
    ensures Interpret(tokens[..i + 1], render) == Interpret(tokens[..i], render) + RenderToken(tokens[i], render)
  {
    assert tokens[..i + 1][..i] == tokens[..i];
  }

  // ----- what a pattern shows, specifier by specifier -----

  /** The default line. */
  function DefaultLine(m: LogMessage, p: TimestampParts): string {
    Padded(p.year + 1900, 4) + ("-" + (Padded(p.month + 1, 2) + ("-" + (Padded(p.day, 2) + (" " + TimeOfLine(m, p))))))
  }

  function TimeOfLine(m: LogMessage, p: TimestampParts): string {
    Padded(p.hour, 2) + (":" + (Padded(p.minute, 2) + (":" + (Padded(p.second, 2)
    + ("." + (Padded(p.millisecond, 3) + (" [" + NamesOfLine(m))))))))
  }

  function NamesOfLine(m: LogMessage): string {
    LevelName(m.level) + ("] [" + (m.loggerName + ("] [tid=" + (Padded(m.threadId, 0) + ("] " + m.payload)))))
  }

  predicate ShowsTime(c: char) { c == 'Y' || c == 'm' || c == 'd' || c == 'H' || c == 'M' || c == 'S' || c == 'e' }

  predicate ShowsName(c: char) { c == 'l' || c == 'n' || c == 't' || c == 'v' }

  predicate ShowsSource(c: char) { c == 's' || c == '#' || c == '!' }

  function TimeShown(c: char, p: TimestampParts): string
    requires ShowsTime(c)
  {
    if c == 'Y' then Padded(p.year + 1900, 4)
    else if c == 'm' then Padded(p.month + 1, 2)
    else if c == 'd' then Padded(p.day, 2)
    else if c == 'H' then Padded(p.hour, 2)
    else if c == 'M' then Padded(p.minute, 2)
    else if c == 'S' then Padded(p.second, 2)
    else Padded(p.millisecond, 3)
  }

  function NameShown(c: char, m: LogMessage): string
    requires ShowsName(c)
  {
    if c == 'l' then LevelName(m.level)
    else if c == 'n' then m.loggerName
    else if c == 't' then Padded(m.threadId, 0)
    else m.payload
  }

  function SourceShown(c: char, source: SourceLocation): string
    requires ShowsSource(c)
  {
    if c == 's' then BaseName(source.file)
    else if c == '#' then if source.line > 0 then Padded(source.line, 0) else ""
    else source.function_
  }

  /** What a percent sign and this character show, if it is not a plus sign. */
  function Shown(c: char, m: LogMessage, p: TimestampParts): string {
    if ShowsTime(c) then TimeShown(c, p)
    else if ShowsName(c) then NameShown(c, m)
    else if ShowsSource(c) then SourceShown(c, m.source)
    else if c == '%' then "%"
    else ['%', c]
  }

  /** A pattern read from left to right: plain characters stand for themselves, and %+ for the default
      line. */
  function Reading(pattern: string, m: LogMessage, p: TimestampParts): string {
    if pattern == "" then ""
    else if pattern[0] != '%' then [pattern[0]] + Reading(pattern[1..], m, p)
    else if |pattern| == 1 then "%"
    else if pattern[1] == '+' then DefaultLine(m, p) + Reading(pattern[2..], m, p)
    else Shown(pattern[1], m, p) + Reading(pattern[2..], m, p)
  }

  /** The text of each level. */
  lemma LevelTexts(level: LogLevel)
    ensures LevelName(level) in ["TRACE", "DEBUG", "INFO", "WARN", "ERROR", "CRITICAL", "OFF"]
    ensures level.Trace? <==> LevelName(level) == "TRACE"
    ensures level.Debug? <==> LevelName(level) == "DEBUG"
    ensures level.Info? <==> LevelName(level) == "INFO"
    ensures level.Warn? <==> LevelName(level) == "WARN"
    ensures level.Error? <==> LevelName(level) == "ERROR"
    ensures level.Critical? <==> LevelName(level) == "CRITICAL"
    ensures level.Off? <==> LevelName(level) == "OFF"
  {
  }

  /** Plain text stands for itself. */
  lemma {:induction false} DirectText(text: string, rest: string, plus: Option<string>, render: Renderer)
    requires forall k | 0 <= k < |text| :: text[k] != '%'
    ensures Direct(text + rest, plus, render) == text + Direct(rest, plus, render)
  {
    if text == "" {
      assert text + rest == rest;
      JoinTexts("", "", Direct(rest, plus, render));
    } else {
      assert (text + rest)[1..] == text[1..] + rest;
      DirectText(text[1..], rest, plus, render);
      JoinTexts([text[0]], text[1..], Direct(rest, plus, render));
      assert text == [text[0]] + text[1..];
    }
  }

  lemma DirectChunk(chunk: string, field: Field, rest: string, plus: Option<string>, render: Renderer)
    requires |chunk| >= 2 && chunk[0] == '%' && FieldOf(chunk[1]) == Some(field) && chunk[1] != '%' && chunk[1] != '+'
    requires forall k | 2 <= k < |chunk| :: chunk[k] != '%'
    ensures Direct(chunk + rest, plus, render) == render(field) + (chunk[2..] + Direct(rest, plus, render))
  {
    assert (chunk + rest)[2..] == chunk[2..] + rest;
    DirectText(chunk[2..], rest, plus, render);
    DirectAt(chunk + rest, render(field), plus, render);
  }

  lemma DateReads(rest: string, m: LogMessage, p: TimestampParts, plus: Option<string>)
    ensures Direct("%Y-%m-%d " + rest, plus, RendererOf(m, p))
            == Padded(p.year + 1900, 4) + ("-" + (Padded(p.month + 1, 2) + ("-" + (Padded(p.day, 2)
               + (" " + Direct(rest, plus, RendererOf(m, p)))))))
  {
    var r := RendererOf(m, p);
    DateLiteral();
    Split3("%Y-", "%m-", "%d ", rest);
    DirectChunk("%Y-", Year, "%m-" + ("%d " + rest), plus, r);
    DirectChunk("%m-", Month, "%d " + rest, plus, r);
    DirectChunk("%d ", Day, rest, plus, r);
  }

  lemma HourReads(rest: string, m: LogMessage, p: TimestampParts, plus: Option<string>)
    ensures Direct("%H:%M:" + rest, plus, RendererOf(m, p))
            == Padded(p.hour, 2) + (":" + (Padded(p.minute, 2) + (":" + Direct(rest, plus, RendererOf(m, p)))))
  {
    var r := RendererOf(m, p);
    HourLiteral();
    Split2("%H:", "%M:", rest);
    DirectChunk("%H:", Hour, "%M:" + rest, plus, r);
    DirectChunk("%M:", Minute, rest, plus, r);
  }

  lemma SecondReads(rest: string, m: LogMessage, p: TimestampParts, plus: Option<string>)
    ensures Direct("%S.%e [" + rest, plus, RendererOf(m, p))
            == Padded(p.second, 2) + ("." + (Padded(p.millisecond, 3) + (" [" + Direct(rest, plus, RendererOf(m, p)))))
  {
    var r := RendererOf(m, p);
    SecondLiteral();
    Split2("%S.", "%e [", rest);
    DirectChunk("%S.", Second, "%e [" + rest, plus, r);
    DirectChunk("%e [", Millisecond, rest, plus, r);
  }

  lemma DirectLast(chunk: string, field: Field, plus: Option<string>, render: Renderer)
    requires |chunk| == 2 && chunk[0] == '%' && FieldOf(chunk[1]) == Some(field) && chunk[1] != '%' && chunk[1] != '+'
    ensures Direct(chunk, plus, render) == render(field)
  {
    DirectAt(chunk, render(field), plus, render);
    assert chunk[2..] == "";
  }

  lemma LevelReads(rest: string, m: LogMessage, p: TimestampParts, plus: Option<string>)
    ensures Direct("%l] [%n] [tid=" + rest, plus, RendererOf(m, p))
            == LevelName(m.level) + ("] [" + (m.loggerName + ("] [tid=" + Direct(rest, plus, RendererOf(m, p)))))
  {
    var r := RendererOf(m, p);
    LevelLiteral();
    Split2("%l] [", "%n] [tid=", rest);
    DirectChunk("%l] [", Level, "%n] [tid=" + rest, plus, r);
    DirectChunk("%n] [tid=", LoggerName, rest, plus, r);
  }

  lemma ThreadReads(last: string, m: LogMessage, p: TimestampParts, plus: Option<string>)
    requires last == "%v"
    ensures Direct("%t] " + last, plus, RendererOf(m, p)) == Padded(m.threadId, 0) + ("] " + m.payload)
  {
    DirectChunk("%t] ", ThreadId, last, plus, RendererOf(m, p));
    DirectLast(last, Payload, plus, RendererOf(m, p));
  }

  /** The default pattern shows the default line. */
  lemma DefaultReads(text: string, m: LogMessage, p: TimestampParts, plus: Option<string>)
    requires text == DEFAULT_PATTERN
    ensures Direct(text, plus, RendererOf(m, p)) == DefaultLine(m, p)
  {
    DefaultPieces(text, "%v");
    ThreadReads("%v", m, p, plus);
    LevelReads("%t] " + "%v", m, p, plus);
    SecondReads("%l] [%n] [tid=" + ("%t] " + "%v"), m, p, plus);
    HourReads("%S.%e [" + ("%l] [%n] [tid=" + ("%t] " + "%v")), m, p, plus);
    DateReads("%H:%M:" + ("%S.%e [" + ("%l] [%n] [tid=" + ("%t] " + "%v"))), m, p, plus);
  }

  // the fields show what their specifiers do

  function FieldText(c: char, m: LogMessage, p: TimestampParts): string {
    match FieldOf(c)
    case Some(field) => RenderField(field, m, p)
    case None => ['%', c]
  }

  function TimeField(c: char): Field
    requires ShowsTime(c)
  {
    if c == 'Y' then Year else if c == 'm' then Month else if c == 'd' then Day else if c == 'H' then Hour
    else if c == 'M' then Minute else if c == 'S' then Second else Millisecond
  }

  lemma FieldOfTime(c: char)
    requires ShowsTime(c)
    ensures FieldOf(c) == Some(TimeField(c))
  {
  }

  lemma TimeTexts(c: char, p: TimestampParts)
    requires ShowsTime(c)
    ensures RenderTime(TimeField(c), p) == TimeShown(c, p)
  {
  }

  lemma TimeFieldReads(c: char, m: LogMessage, p: TimestampParts)
    requires ShowsTime(c)
    ensures FieldText(c, m, p) == Shown(c, m, p)
  {
    FieldOfTime(c);
    TimeTexts(c, p);
  }

  function NameField(c: char): Field
    requires ShowsName(c)
  {
    if c == 'l' then Level else if c == 'n' then LoggerName else if c == 't' then ThreadId else Payload
  }

  lemma FieldOfName(c: char)
    requires ShowsName(c)
    ensures FieldOf(c) == Some(NameField(c))
  {
  }

  lemma NameTexts(c: char, m: LogMessage)
    requires ShowsName(c)
    ensures RenderName(NameField(c), m) == NameShown(c, m)
  {
  }

  lemma NameFieldReads(c: char, m: LogMessage, p: TimestampParts)
    requires ShowsName(c)
    ensures FieldText(c, m, p) == Shown(c, m, p)
  {
    FieldOfName(c);
    NameTexts(c, m);
  }

  lemma FieldOfSource(c: char)
    requires ShowsSource(c)
    ensures FieldOf(c) == Some(if c == 's' then SourceFile else if c == '#' then SourceLine else SourceFunction)
  {
  }

  lemma SourceTexts(field: Field, c: char, source: SourceLocation)
    requires IsSourceField(field) && ShowsSource(c)
    requires (field.SourceFile? <==> c == 's') && (field.SourceLine? <==> c == '#')
    ensures RenderSource(field, source) == SourceShown(c, source)
  {
  }

  lemma SourceFieldReads(c: char, m: LogMessage, p: TimestampParts)
    requires ShowsSource(c)
    ensures FieldText(c, m, p) == Shown(c, m, p)
  {
    FieldOfSource(c);
    SourceTexts(FieldOf(c).value, c, m.source);
  }

  lemma UnknownReads(c: char, m: LogMessage, p: TimestampParts)
    requires !ShowsTime(c) && !ShowsName(c) && !ShowsSource(c) && c != '%'
    ensures FieldText(c, m, p) == Shown(c, m, p) == ['%', c]
  {
  }

  lemma FieldReads(c: char, m: LogMessage, p: TimestampParts)
    requires c != '%' && c != '+'
    ensures FieldText(c, m, p) == Shown(c, m, p)
  {
    if ShowsTime(c) { TimeFieldReads(c, m, p); }
    else if ShowsName(c) { NameFieldReads(c, m, p); }
    else if ShowsSource(c) { SourceFieldReads(c, m, p); }
    else { UnknownReads(c, m, p); }
  }

  lemma SpecifierIsField(c: char, m: LogMessage, p: TimestampParts, plus: Option<string>)
    requires c != '%' && c != '+'
    ensures DirectSpecifier(c, plus, RendererOf(m, p)) == FieldText(c, m, p)
  {
  }

  /** This text shows the default line. */
  ghost predicate ShowsDefault(text: string, m: LogMessage, p: TimestampParts) {
    forall plus :: Direct(text, plus, RendererOf(m, p)) == DefaultLine(m, p)
  }

  lemma DefaultShowsDefault(text: string, m: LogMessage, p: TimestampParts)
    requires text == DEFAULT_PATTERN
    ensures ShowsDefault(text, m, p)
  {
    forall plus ensures Direct(text, plus, RendererOf(m, p)) == DefaultLine(m, p) {
      DefaultReads(text, m, p, plus);
    }
  }

  lemma PlusReads(m: LogMessage, p: TimestampParts, text: string, c: char)
    requires ShowsDefault(text, m, p) && c == '+'
    ensures DirectSpecifier(c, Some(text), RendererOf(m, p)) == DefaultLine(m, p)
  {
  }

  lemma SpecifierReads(c: char, m: LogMessage, p: TimestampParts, text: string)
    requires c != '+'
    ensures DirectSpecifier(c, Some(text), RendererOf(m, p)) == Shown(c, m, p)
  {
    if c != '%' {
      SpecifierIsField(c, m, p, Some(text));
      FieldReads(c, m, p);
    }
  }

  /** The direct meaning, which knows fields, is the plain reading, which does not. */
  lemma {:induction false} DirectIsReading(pattern: string, m: LogMessage, p: TimestampParts, text: string)
    requires ShowsDefault(text, m, p)
    ensures Direct(pattern, Some(text), RendererOf(m, p)) == Reading(pattern, m, p)
    decreases |pattern|
  {
    if pattern != "" {
      if pattern[0] != '%' {
        DirectIsReading(pattern[1..], m, p, text);
      } else if |pattern| > 1 {
        DirectIsReading(pattern[2..], m, p, text);
        if pattern[1] == '+' { PlusReads(m, p, text, pattern[1]); } else { SpecifierReads(pattern[1], m, p, text); }
      }
    }
  }

  lemma ReadingOfOne(pattern: string, m: LogMessage, p: TimestampParts)
    requires |pattern| == 2 && pattern[0] == '%' && pattern[1] != '+'
    ensures Reading(pattern, m, p) == Shown(pattern[1], m, p)
  {
    assert pattern[2..] == "" && Reading("", m, p) == "";
  }

  lemma ReadingOfDefault(text: string, m: LogMessage, p: TimestampParts)
    requires text == DEFAULT_PATTERN
    ensures Reading(text, m, p) == DefaultLine(m, p)
  {
    DefaultShowsDefault(text, m, p);
    DirectIsReading(text, m, p, text);
  }

  lemma PlusIsDefaultLine(pattern: string, m: LogMessage, p: TimestampParts)
    requires pattern == "%+"
    ensures Reading(pattern, m, p) == DefaultLine(m, p)
  {
    assert pattern[2..] == "" && Reading("", m, p) == "";
  }

  /** The renderings that need no reading: the default line, and a single specifier. */
  ghost predicate KnownReading(pattern: string, m: LogMessage, p: TimestampParts, text: string) {
    && (pattern == DEFAULT_PATTERN || pattern == "%+" ==> text == DefaultLine(m, p))
    && (|pattern| == 2 && pattern[0] == '%' && pattern[1] != '+' ==> text == Shown(pattern[1], m, p))
  }

  lemma ReadingIsKnown(pattern: string, m: LogMessage, p: TimestampParts)
    ensures KnownReading(pattern, m, p, Reading(pattern, m, p))
  {
    if pattern == DEFAULT_PATTERN { ReadingOfDefault(pattern, m, p); }
    else if pattern == "%+" { PlusIsDefaultLine(pattern, m, p); }
    if |pattern| == 2 && pattern[0] == '%' && pattern[1] != '+' { ReadingOfOne(pattern, m, p); }
  }

  // ----- the time can be read back from the default line -----

  function Pow10(k: nat): nat { if k == 0 then 1 else 10 * Pow10(k - 1) }

  lemma {:induction false} FewDigits(n: nat, k: nat)
    requires k > 0 && n < Pow10(k)
    ensures |Digits(n)| <= k
  {
    if n >= 10 {
      assert k > 1;
      FewDigits(n / 10, k - 1);
    }
  }

  lemma ExactWidth(n: nat, k: nat)
    requires k > 0 && n < Pow10(k)
    ensures |Padded(n, k)| == k
  {
    PaddedLength(n, k);
    FewDigits(n, k);
  }

  /** A calendar time with a year of at most four digits, as the C library gives it. */
  predicate Calendar(p: TimestampParts) {
    && 0 <= p.year + 1900 < 10000 && 0 <= p.month < 12 && 1 <= p.day <= 31
    && 0 <= p.hour < 24 && 0 <= p.minute < 60 && 0 <= p.second <= 60 && 0 <= p.millisecond < 1000
  }

  /** A number between two positions of a line. */
  datatype Span = Span(from: nat, to: nat, value: int)

  ghost predicate ReadsAt(line: string, span: Span) {
    span.from <= span.to <= |line| && Read(line[span.from..span.to]) == Some(span.value)
  }

  /** The digits stand there. */
  ghost predicate StandsAt(line: string, span: Span) {
    span.from <= span.to <= |line| && line[span.from..span.to] == Padded(span.value, span.to - span.from)
  }

  function TimeSpans(p: TimestampParts): seq<Span> {
    [Span(0, 4, p.year + 1900), Span(5, 7, p.month + 1), Span(8, 10, p.day), Span(11, 13, p.hour),
     Span(14, 16, p.minute), Span(17, 19, p.second), Span(20, 23, p.millisecond)]
  }

  /** A text and the character after it. */
  datatype Piece = Piece(text: string, separator: char)

  /** The pieces from i on, and then the rest. */
  function Row(pieces: seq<Piece>, i: nat, rest: string): string
    decreases |pieces| - i
  {
    if i >= |pieces| then rest else pieces[i].text + ([pieces[i].separator] + Row(pieces, i + 1, rest))
  }

  function Offset(pieces: seq<Piece>, i: nat): nat
    requires i <= |pieces|
  {
    if i == 0 then 0 else Offset(pieces, i - 1) + |pieces[i - 1].text| + 1
  }

  /** The line goes on like this from position a. */
  ghost predicate GoesOn(line: string, a: nat, rest: string) {
    a <= |line| && line[a..] == rest
  }

  lemma CutAt(line: string, a: nat, x: string, c: char, rest: string)
    requires GoesOn(line, a, x + ([c] + rest))
    ensures a + |x| < |line| && line[a..a + |x|] == x && GoesOn(line, a + |x| + 1, rest)
  {
    assert line[a..a + |x|] == line[a..][..|x|];
    assert line[a + |x| + 1..] == line[a..][|x| + 1..];
  }

  lemma RowStep(pieces: seq<Piece>, i: nat, rest: string)
    requires i < |pieces|
    ensures Row(pieces, i, rest) == pieces[i].text + ([pieces[i].separator] + Row(pieces, i + 1, rest))
  {
  }

  lemma RowEnd(pieces: seq<Piece>, i: nat, rest: string)
    requires i >= |pieces|
    ensures Row(pieces, i, rest) == rest
  {
  }

  /** From the offset of a piece on, the row goes on with it. */
  lemma {:induction false} RowTail(pieces: seq<Piece>, rest: string, line: string, i: nat)
    requires i <= |pieces| && line == Row(pieces, 0, rest)
    ensures GoesOn(line, Offset(pieces, i), Row(pieces, i, rest))
  {
    if i == 0 {
      assert line[0..] == line;
    } else {
      RowTail(pieces, rest, line, i - 1);
      RowStep(pieces, i - 1, rest);
      CutAt(line, Offset(pieces, i - 1), pieces[i - 1].text, pieces[i - 1].separator, Row(pieces, i, rest));
    }
  }

  lemma PieceStands(pieces: seq<Piece>, rest: string, line: string, i: nat)
    requires i < |pieces| && line == Row(pieces, 0, rest)
    ensures var a := Offset(pieces, i); a + |pieces[i].text| <= |line| && line[a..a + |pieces[i].text|] == pieces[i].text
  {
    RowTail(pieces, rest, line, i);
    RowStep(pieces, i, rest);
    CutAt(line, Offset(pieces, i), pieces[i].text, pieces[i].separator, Row(pieces, i + 1, rest));
  }

  lemma PowersOfTen(two: nat, three: nat, four: nat)
    requires two == 2 && three == 3 && four == 4
    ensures Pow10(two) == 100 && Pow10(three) == 1000 && Pow10(four) == 10000
  {
    assert Pow10(two - 1) == 10 && Pow10(three - 1) == 100 && Pow10(four - 1) == 1000;
  }

  /** The digits of each span, and the character after them. */
  function TimePiece(p: TimestampParts, i: nat): Piece
    requires i < 7
  {
    var span := TimeSpans(p)[i];
    Piece(Padded(span.value, span.to - span.from), "-- ::. "[i])
  }

  function TimePieces(p: TimestampParts): (pieces: seq<Piece>)
    ensures |pieces| == 7 && forall i | 0 <= i < 7 :: pieces[i] == TimePiece(p, i)
  {
    seq(7, i requires 0 <= i < 7 => TimePiece(p, i))
  }

  lemma DatePieces(p: TimestampParts)
    ensures TimePiece(p, 0) == Piece(Padded(p.year + 1900, 4), '-')
    ensures TimePiece(p, 1) == Piece(Padded(p.month + 1, 2), '-')
    ensures TimePiece(p, 2) == Piece(Padded(p.day, 2), ' ')
  {
  }

  lemma ClockPieces(p: TimestampParts)
    ensures TimePiece(p, 3) == Piece(Padded(p.hour, 2), ':')
    ensures TimePiece(p, 4) == Piece(Padded(p.minute, 2), ':')
    ensures TimePiece(p, 5) == Piece(Padded(p.second, 2), '.')
    ensures TimePiece(p, 6) == Piece(Padded(p.millisecond, 3), ' ')
  {
  }

  /** Three pieces, in so many words. */
  lemma ThreePieces(pieces: seq<Piece>, i: nat, a: Piece, b: Piece, c: Piece, rest: string)
    requires i + 3 <= |pieces| && pieces[i] == a && pieces[i + 1] == b && pieces[i + 2] == c
    ensures Row(pieces, i, rest)
            == a.text + ([a.separator] + (b.text + ([b.separator] + (c.text + ([c.separator] + Row(pieces, i + 3, rest))))))
  {
    RowStep(pieces, i, rest);
    RowStep(pieces, i + 1, rest);
    RowStep(pieces, i + 2, rest);
  }

  lemma DateRow(pieces: seq<Piece>, i: nat, a: string, b: string, c: string, rest: string)
    requires i + 3 <= |pieces| && pieces[i] == Piece(a, '-') && pieces[i + 1] == Piece(b, '-') && pieces[i + 2] == Piece(c, ' ')
    ensures Row(pieces, i, rest) == a + ("-" + (b + ("-" + (c + (" " + Row(pieces, i + 3, rest))))))
  {
    ThreePieces(pieces, i, Piece(a, '-'), Piece(b, '-'), Piece(c, ' '), rest);
  }

  lemma ClockRow(pieces: seq<Piece>, i: nat, a: string, b: string, c: string, d: string, rest: string)
    requires i + 4 == |pieces| && pieces[i] == Piece(a, ':') && pieces[i + 1] == Piece(b, ':')
    requires pieces[i + 2] == Piece(c, '.') && pieces[i + 3] == Piece(d, ' ')
    ensures Row(pieces, i, "[" + rest) == a + (":" + (b + (":" + (c + ("." + (d + (" [" + rest)))))))
  {
    ThreePieces(pieces, i, Piece(a, ':'), Piece(b, ':'), Piece(c, '.'), "[" + rest);
    LastPiece(pieces, i + 3, "[" + rest);
    Split2(" ", "[", rest);
    assert " " + "[" == " [";
  }

  lemma LastPiece(pieces: seq<Piece>, i: nat, rest: string)
    requires i + 1 == |pieces|
    ensures Row(pieces, i, rest) == pieces[i].text + ([pieces[i].separator] + rest)
  {
    RowStep(pieces, i, rest);
    RowEnd(pieces, i + 1, rest);
  }

  lemma TimeIsRow(m: LogMessage, p: TimestampParts)
    ensures TimeOfLine(m, p) == Row(TimePieces(p), 3, "[" + NamesOfLine(m))
  {
    ClockPieces(p);
    ClockRow(TimePieces(p), 3, Padded(p.hour, 2), Padded(p.minute, 2), Padded(p.second, 2), Padded(p.millisecond, 3), NamesOfLine(m));
  }

  function DateAnd(p: TimestampParts, rest: string): string {
    Padded(p.year + 1900, 4) + ("-" + (Padded(p.month + 1, 2) + ("-" + (Padded(p.day, 2) + (" " + rest)))))
  }

  lemma DateIsRow(p: TimestampParts, rest: string)
    ensures DateAnd(p, Row(TimePieces(p), 3, rest)) == Row(TimePieces(p), 0, rest)
  {
    DatePieces(p);
    DateRow(TimePieces(p), 0, Padded(p.year + 1900, 4), Padded(p.month + 1, 2), Padded(p.day, 2), rest);
  }

  lemma LineIsDateAnd(m: LogMessage, p: TimestampParts)
    ensures DefaultLine(m, p) == DateAnd(p, TimeOfLine(m, p))
  {
  }

  lemma LineIsRow(m: LogMessage, p: TimestampParts)
    ensures DefaultLine(m, p) == Row(TimePieces(p), 0, "[" + NamesOfLine(m))
  {
    LineIsDateAnd(m, p);
    TimeIsRow(m, p);
    DateIsRow(p, "[" + NamesOfLine(m));
  }

  lemma SpanFits(p: TimestampParts, i: nat)
    requires Calendar(p) && i < 7
    ensures var span := TimeSpans(p)[i];
            span.from < span.to && 0 <= span.value < Pow10(span.to - span.from)
  {
    PowersOfTen(2, 3, 4);
  }

  lemma PieceWidth(p: TimestampParts, i: nat)
    requires Calendar(p) && i < 7
    ensures |TimePiece(p, i).text| == TimeSpans(p)[i].to - TimeSpans(p)[i].from
  {
    SpanFits(p, i);
    ExactWidth(TimeSpans(p)[i].value, TimeSpans(p)[i].to - TimeSpans(p)[i].from);
  }

  lemma SpansFollow(p: TimestampParts, i: nat)
    requires i + 1 < 7
    ensures TimeSpans(p)[0].from == 0 && TimeSpans(p)[i + 1].from == TimeSpans(p)[i].to + 1
  {
  }

  lemma {:induction false} PieceOffset(p: TimestampParts, i: nat)
    requires Calendar(p) && i < 7
    ensures Offset(TimePieces(p), i) == TimeSpans(p)[i].from
  {
    if i > 0 {
      PieceOffset(p, i - 1);
      PieceWidth(p, i - 1);
      SpansFollow(p, i - 1);
    }
  }

  /** The default line, read at fixed places, gives back the year, the month, the day, the hour, the
      minute, the second and the millisecond. */
  lemma DefaultLineReadsBack(m: LogMessage, p: TimestampParts, i: nat)
    requires Calendar(p) && i < |TimeSpans(p)|
    ensures ReadsAt(DefaultLine(m, p), TimeSpans(p)[i])
  {
    LineIsRow(m, p);
    RowReads(DefaultLine(m, p), "[" + NamesOfLine(m), p, i);
  }

  lemma RowReads(line: string, rest: string, p: TimestampParts, i: nat)
    requires Calendar(p) && i < |TimeSpans(p)| && line == Row(TimePieces(p), 0, rest)
    ensures ReadsAt(line, TimeSpans(p)[i])
  {
    RowStands(line, rest, p, i);
    StandsMeansReads(line, TimeSpans(p)[i]);
  }

  lemma RowStands(line: string, rest: string, p: TimestampParts, i: nat)
    requires Calendar(p) && i < |TimeSpans(p)| && line == Row(TimePieces(p), 0, rest)
    ensures StandsAt(line, TimeSpans(p)[i])
  {
    var span := TimeSpans(p)[i];
    PieceStands(TimePieces(p), rest, line, i);
    PieceOffset(p, i);
    PieceWidth(p, i);
    PieceOfSpan(p, i, span);
  }

  lemma PieceOfSpan(p: TimestampParts, i: nat, span: Span)
    requires i < 7 && span == TimeSpans(p)[i]
    ensures TimePieces(p)[i].text == Padded(span.value, span.to - span.from)
  {
  }

  lemma StandsMeansReads(line: string, span: Span)
    requires StandsAt(line, span)
    ensures ReadsAt(line, span)
  {
    PaddedReadsBack(span.value, span.to - span.from);
  }

  // ----- the formatter -----

  class PatternFormatter {
    var pattern: string
    var tokens: seq<Token>
    const localTime: int -> TimestampParts

    ghost predicate Valid()
      reads this
    {
      tokens == Compile(pattern, "", Some(DEFAULT_PATTERN))
    }

    /** The text the pattern stands for. */
    ghost function Rendering(m: LogMessage): string
      reads this
    {
      Reading(pattern, m, localTime(m.timestamp))
    }

    constructor (pattern: string, localTime: int -> TimestampParts)
      ensures Valid() && this.pattern == pattern && this.localTime == localTime
    {
      this.pattern := pattern;
      this.localTime := localTime;
      tokens := [];
      new;
      RebuildTokens();
    }

    method SetPattern(pattern: string)
      modifies this
      ensures Valid() && this.pattern == pattern
    {
      this.pattern := pattern;
      RebuildTokens();
    }

    method RebuildTokens()
      modifies this`tokens
      ensures Valid()
    {
      tokens := [];
      CompilePattern(pattern, true);
    }

    /** The compiling lambda of RebuildTokens, which calls itself once for the default pattern. */
    method CompilePattern(text: string, allowDefaultExpansion: bool)
      modifies this`tokens
      ensures tokens == old(tokens) + Compile(text, "", if allowDefaultExpansion then Some(DEFAULT_PATTERN) else None)
      decreases allowDefaultExpansion
    {
      ghost var plus := if allowDefaultExpansion then Some(DEFAULT_PATTERN) else None;
      var literal := "";
      var index := 0;
      while index < |text|
        invariant 0 <= index <= |text|
        invariant tokens + Compile(text[index..], literal, plus) == old(tokens) + Compile(text, "", plus)
      {
        ghost var before, pending, rest := tokens, literal, text[index..];
        assert rest[1..] == text[index + 1..];
        var current := text[index];
        if current != '%' {
          literal := literal + [current];
          index := index + 1;
          continue;
        }
        if index + 1 >= |text| {
          literal := literal + "%";
          break;
        }
        assert rest[2..] == text[index + 2..];
        var specifier := text[index + 1];
        index := index + 2;
        match FieldOf(specifier) {
          case Some(field) =>
            FlushPending(literal);
            literal := "";
            tokens := tokens + [FieldToken(field)];
            assert tokens + Compile(rest[2..], literal, plus) == before + Compile(rest, pending, plus);
          case None =>
            if specifier == '%' {
              literal := literal + "%";
              assert tokens + Compile(rest[2..], literal, plus) == before + Compile(rest, pending, plus);
            } else if specifier == '+' {
              FlushPending(literal);
              literal := "";
              if allowDefaultExpansion {
                CompilePattern(DEFAULT_PATTERN, false);
                assert tokens == before + FlushLiteral(pending) + Compile(DEFAULT_PATTERN, "", None);
                Regroup(before, FlushLiteral(pending), Compile(DEFAULT_PATTERN, "", None), Compile(rest[2..], "", plus));
                assert tokens + Compile(rest[2..], literal, plus) == before + Compile(rest, pending, plus);
              } else {
                literal := literal + "%+";
                assert literal == "%+";
                Regroup(before, FlushLiteral(pending), [], Compile(rest[2..], literal, plus));
                assert tokens + Compile(rest[2..], literal, plus) == before + Compile(rest, pending, plus);
              }
            } else {
              literal := literal + "%" + [specifier];
              assert literal == pending + ['%', specifier];
              assert tokens + Compile(rest[2..], literal, plus) == before + Compile(rest, pending, plus);
            }
        }
      }
      FlushPending(literal);
    }

    method FlushPending(literal: string)
      modifies this`tokens
      ensures tokens == old(tokens) + FlushLiteral(literal)
    {
      if literal != "" {
        tokens := tokens + [Literal(literal)];
      }
    }

    method Format(m: LogMessage) returns (output: string)
      requires Valid()
      ensures output == Rendering(m)
      ensures KnownReading(pattern, m, localTime(m.timestamp), output)
    {
      output := FormatTo("", m);
      ReadingIsKnown(pattern, m, localTime(m.timestamp));
    }

    method FormatTo(output: string, m: LogMessage) returns (output': string)
      requires Valid()
      ensures output' == output + Rendering(m)
      ensures exists text :: output' == output + text && KnownReading(pattern, m, localTime(m.timestamp), text)
    {
      TokensRender(m);
      ReadingIsKnown(pattern, m, localTime(m.timestamp));
      ghost var conversions;
      output', conversions := RunTokens(output, tokens, m, localTime);
    }

    lemma TokensRender(m: LogMessage)
      requires Valid()
      ensures Interpret(tokens, RendererOf(m, localTime(m.timestamp))) == Rendering(m)
    {
      CompileIsFaithful(pattern, "", Some(DEFAULT_PATTERN), RendererOf(m, localTime(m.timestamp)));
      DefaultShowsDefault(DEFAULT_PATTERN, m, localTime(m.timestamp));
      DirectIsReading(pattern, m, localTime(m.timestamp), DEFAULT_PATTERN);
      assert "" + Rendering(m) == Rendering(m);
    }
  }

  /** The token shows a part of the time. */
  predicate NeedsTime(token: Token) {
    token.FieldToken? && IsTimeField(token.field)
  }

  predicate AnyNeedsTime(tokens: seq<Token>) {
    exists i :: 0 <= i < |tokens| && NeedsTime(tokens[i])
  }

  lemma NeedsTimeSnoc(tokens: seq<Token>, i: nat)
    requires i < |tokens|
    ensures AnyNeedsTime(tokens[..i + 1]) <==> AnyNeedsTime(tokens[..i]) || NeedsTime(tokens[i])
  {
    assert tokens[..i + 1] == tokens[..i] + [tokens[i]];
    if AnyNeedsTime(tokens[..i]) {
      var j :| 0 <= j < i && NeedsTime(tokens[..i][j]);
      assert NeedsTime(tokens[..i + 1][j]);
    }
    if NeedsTime(tokens[i]) { assert NeedsTime(tokens[..i + 1][i]); }
  }

  /** The loop of FormatTo.  The time is converted once if some token needs it, and else not at all. */
  method RunTokens(output: string, tokens: seq<Token>, m: LogMessage, localTime: int -> TimestampParts)
    returns (output': string, ghost conversions: nat)
    ensures output' == output + Interpret(tokens, RendererOf(m, localTime(m.timestamp)))
    ensures conversions == if AnyNeedsTime(tokens) then 1 else 0
  {
    output' := output;
    conversions := 0;
    var hasTime := false;
    var parts := TimestampParts(0, 0, 0, 0, 0, 0, 0);
    ghost var render := RendererOf(m, localTime(m.timestamp));
    for i := 0 to |tokens|
      invariant hasTime ==> parts == localTime(m.timestamp)
      invariant hasTime <==> AnyNeedsTime(tokens[..i])
      invariant conversions == if hasTime then 1 else 0
      invariant output' == output + Interpret(tokens[..i], render)
    {
      InterpretSnoc(tokens, i, render);
      NeedsTimeSnoc(tokens, i);
      JoinTexts(output, Interpret(tokens[..i], render), RenderToken(tokens[i], render));
      ghost var converted;
      output', hasTime, parts, converted := RunToken(output', tokens[i], m, localTime, hasTime, parts);
      conversions := conversions + converted;
    }
    assert tokens[..|tokens|] == tokens;
  }

  method RunToken(output: string, token: Token, m: LogMessage, localTime: int -> TimestampParts,
                  hasTime: bool, parts: TimestampParts)
    returns (output': string, hasTime': bool, parts': TimestampParts, ghost conversions: nat)
    requires hasTime ==> parts == localTime(m.timestamp)
    ensures hasTime' ==> parts' == localTime(m.timestamp)
    ensures hasTime' <==> hasTime || NeedsTime(token)
    ensures conversions == if hasTime' && !hasTime then 1 else 0
    ensures output' == output + RenderToken(token, RendererOf(m, localTime(m.timestamp)))
  {
    hasTime', parts', conversions := hasTime, parts, 0;
    match token {
      case Literal(text) =>
        output' := output + text;
      case FieldToken(field) =>
        if IsTimeField(field) && !hasTime {
          parts' := localTime(m.timestamp);
          conversions := 1;
          hasTime' := true;
        }
        output' := AppendField(output, field, m, parts', localTime(m.timestamp));
    }
  }

  method AppendField(output: string, field: Field, m: LogMessage, parts: TimestampParts, ghost time: TimestampParts)
    returns (output': string)
    requires IsTimeField(field) ==> parts == time
    ensures output' == output + RenderToken(FieldToken(field), RendererOf(m, time))
  {
    match field {
      case Year => output' := AppendInteger(output, parts.year + 1900, 4);
      case Month => output' := AppendInteger(output, parts.month + 1, 2);
      case Day => output' := AppendInteger(output, parts.day, 2);
      case Hour => output' := AppendInteger(output, parts.hour, 2);
      case Minute => output' := AppendInteger(output, parts.minute, 2);
      case Second => output' := AppendInteger(output, parts.second, 2);
      case Millisecond => output' := AppendInteger(output, parts.millisecond, 3);
      case Level => output' := output + LevelName(m.level);
      case LoggerName => output' := output + m.loggerName;
      case ThreadId => output' := AppendInteger(output, m.threadId, 0);
      case Payload => output' := output + m.payload;
      case SourceFile => output' := output + BaseName(m.source.file);
      case SourceLine =>
        if m.source.line > 0 { output' := AppendInteger(output, m.source.line, 0); } else { output' := output; }
      case SourceFunction => output' := output + m.source.function_;
    }
  }
}
