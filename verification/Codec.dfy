/** Written values and how they are read back: the `write` functions of ints, chars,
    strings, stacks and pairs, and the part of the reader that understands them.  What
    else may stand in a text is a parameter (`Lang`).
    Characters are bytes; letters are classed as in the C locale. */
module Codec {
  import opened Basics

  datatype Val =
    | IntV(i: int)
    | CharV(c: char)
    | StrV(s: string)
    | StackV(items: seq<Val>)
    | PairV(a: Val, b: Val)

  const INT64_MIN: int := -0x8000_0000_0000_0000
  const INT64_MAX: int := 0x7fff_ffff_ffff_ffff

  predicate IsByte(c: char) {
    c as int < 256
  }

  predicate IsDigit(c: char) {
    '0' <= c <= '9'
  }

  predicate IsGraph(c: char) {
    33 <= c as int <= 126
  }

  /** `(char)fgetc` turns this byte into EOF. */
  predicate IsEof(c: char) {
    c as int == 255
  }

  function Digit(n: nat): char
    requires n < 10
  {
    (48 + n) as char
  }

  function DigitVal(c: char): nat
    requires IsDigit(c)
  {
    c as int - 48
  }

  // ---- writing -------------------------------------------------------------

  /** "%03d" */
  function ThreeDigits(n: nat): string
    requires n < 1000
  {
    [Digit(n / 100), Digit(n / 10 % 10), Digit(n % 10)]
  }

  /** One step of cx_cstr_encode. */
  function EncodeChar(c: char): string
    requires IsByte(c)
  {
    if c == ' ' then " "
    else if c == '\n' then "@n"
    else if c == '\r' then "@r"
    else if c == '\t' then "@t"
    else if IsGraph(c) && c != '\'' then [c]
    else "@" + ThreeDigits(c as int)
  }

  predicate Bytes(s: string) {
    forall c :: c in s ==> IsByte(c)
  }

  function Encode(s: string): string
    requires Bytes(s)
  {
    if s == [] then [] else EncodeChar(s[0]) + Encode(s[1..])
  }

  /** The writer of chars */
  function WriteChar(c: char): string
    requires IsByte(c)
  {
    if c == '\n' then "@@n"
    else if c == '\r' then "@@r"
    else if c == ' ' then "@@s"
    else if c == '\t' then "@@t"
    else if IsGraph(c) then ['@', c]
    else "@@" + ThreeDigits(c as int)
  }

  function WriteNat(n: nat): string {
    if n < 10 then [Digit(n)] else WriteNat(n / 10) + [Digit(n % 10)]
  }

  function WriteInt(i: int): string {
    if i < 0 then "-" + WriteNat(-i) else WriteNat(i)
  }

  /** What the reader gives back as it was. */
  predicate Writable(v: Val) {
    match v
    case IntV(i) => INT64_MIN <= i <= INT64_MAX
    case CharV(c) => IsByte(c)
    case StrV(s) => Bytes(s)
    case StackV(items) => forall x :: x in items ==> Writable(x)
    case PairV(a, b) => Writable(a) && Writable(b)
  }

  function Write(v: Val): string
    requires Writable(v)
    decreases v, 0
  {
    match v
    case IntV(i) => WriteInt(i)
    case CharV(c) => WriteChar(c)
    case StrV(s) => "'" + Encode(s) + "'"
    case StackV(items) => "[" + WriteItems(items) + "]"
    case PairV(a, b) => "(" + Write(a) + " " + Write(b) + ",)"
  }

  function WriteItems(items: seq<Val>): string
    requires forall x :: x in items ==> Writable(x)
    decreases items, 0
  {
    if items == [] then []
    else if |items| == 1 then Write(items[0])
    else Write(items[0]) + " " + WriteItems(items[1..])
  }

  // ---- reading -------------------------------------------------------------

  /** Tokens.  A float keeps its characters; `Other` stands for symbols, lambdas, comments
      and what macros make of the text behind them. */
  datatype Tok =
    | Lit(v: Val) | Group(body: seq<Tok>) | Stack(body: seq<Tok>) | Id(id: string) | UnGroup | UnStack
    | Float(digits: string) | Other(text: string)

  /** The rest of the language: what is read where no value begins, and how many
      characters of the text it takes; and what the tokens do that no value is written
      with. */
  datatype Lang = Lang(read: string -> Option<(Tok, nat)>, run: (Tok, seq<Val>) -> Option<seq<Val>>)

  /** A result and the text that is left. */
  datatype Read<+T> = Read(got: T, rest: string)

  function Code(d: string): nat
    requires |d| >= 3 && IsDigit(d[0]) && IsDigit(d[1]) && IsDigit(d[2])
  {
    100 * DigitVal(d[0]) + 10 * DigitVal(d[1]) + DigitVal(d[2])
  }

  /** parse_char, behind the first '@'.  A code wraps to a byte. */
  function ParseChar(text: string): (r: Option<Read<char>>)
    ensures r.Some? ==> |r.value.rest| < |text|
  {
    if text == [] || IsEof(text[0]) then None
    else if text[0] != '@' then Some(Read(text[0], text[1..]))
    else
      var rest := text[1..];
      if rest == [] then Some(Read('@', rest))
      else if rest[0] == 'n' then Some(Read('\n', rest[1..]))
      else if rest[0] == 'r' then Some(Read('\r', rest[1..]))
      else if rest[0] == 's' then Some(Read(' ', rest[1..]))
      else if rest[0] == 't' then Some(Read('\t', rest[1..]))
      else if IsDigit(rest[0]) then
        if |rest| >= 3 && IsDigit(rest[1]) && IsDigit(rest[2])
        then Some(Read((Code(rest) % 256) as char, rest[3..])) else None
      else if IsEof(rest[0]) then Some(Read('@', rest[1..]))
      else Some(Read('@', rest))
  }

  /** parse_str, behind the opening quote; `pc` is the character before. */
  function ParseStr(text: string, pc: char): (r: Option<Read<string>>)
    ensures r.Some? ==> |r.value.rest| < |text|
    decreases |text|
  {
    if text == [] || IsEof(text[0]) then None
    else if text[0] == '\'' && pc != '\\' then Some(Read([], text[1..]))
    else
      var c := if text[0] == '@' then ParseChar(text) else Some(Read(text[0], text[1..]));
      if c.None? then None
      else
        var more := ParseStr(c.value.rest, c.value.got);
        if more.None? then None else Some(Read([c.value.got] + more.value.got, more.value.rest))
  }

  function NumLength(text: string): (n: nat)
    ensures n <= |text|
  {
    if text != [] && (IsDigit(text[0]) || text[0] == '.') then 1 + NumLength(text[1..]) else 0
  }

  predicate AllDigits(s: string) {
    forall c :: c in s ==> IsDigit(c)
  }

  function NatVal(s: string): nat
    requires AllDigits(s)
  {
    if s == [] then 0 else 10 * NatVal(s[..|s| - 1]) + DigitVal(s[|s| - 1])
  }

  /** A character that was looked at and pushed back is still there, except one that
      reads as EOF. */
  function PushedBack(rest: string): (r: string)
    ensures |r| <= |rest|
  {
    if rest != [] && IsEof(rest[0]) then rest[1..] else rest
  }

  /** parse_num on an int: the first character is taken as it is.  Floats are not
      part of this model. */
  function ParseNum(text: string): (r: Option<Read<int>>)
    requires text != [] && (IsDigit(text[0]) || (text[0] == '-' && |text| > 1 && IsDigit(text[1])))
    ensures r.Some? ==> |r.value.rest| < |text|
  {
    var n := 1 + NumLength(text[1..]);
    var digits := if text[0] == '-' then text[1..n] else text[..n];
    if !AllDigits(digits) then None
    else
      var v := if text[0] == '-' then 0 - NatVal(digits) else NatVal(digits);
      if INT64_MIN <= v <= INT64_MAX then Some(Read(v, PushedBack(text[n..]))) else None
  }

  /** A digit, or a sign or a point with a digit behind it. */
  predicate StartsNum(text: string) {
    text != [] && (IsDigit(text[0]) || (text[0] in "-." && |text| > 1 && IsDigit(text[1])))
  }

  /** parse_num: a point makes it a float. */
  function ParseNumTok(text: string): (r: Option<Read<Tok>>)
    requires StartsNum(text)
    ensures r.Some? ==> |r.value.rest| < |text|
  {
    var n := 1 + NumLength(text[1..]);
    if '.' in text[..n] then Some(Read(Float(text[..n]), PushedBack(text[n..])))
    else
      assert text[0] == text[..n][0];
      var r := ParseNum(text);
      if r.None? then None else Some(Read(Lit(IntV(r.value.got)), r.value.rest))
  }

  function ParseOther(g: Lang, text: string): (r: Option<Read<Tok>>)
    ensures r.Some? ==> |r.value.rest| < |text|
  {
    var r := g.read(text);
    if r.Some? && 0 < r.value.1 <= |text| then Some(Read(r.value.0, text[r.value.1..])) else None
  }

  /** cx_parse_tok.  Behind a sign, a point or a slash one more character has been looked
      at before the rest of the language is asked. */
  function ParseTok(g: Lang, text: string): (r: Option<Read<Tok>>)
    ensures r.Some? ==> |r.value.rest| < |text|
    decreases |text|, 0
  {
    if text == [] || IsEof(text[0]) then None
    else
      var (c, rest) := (text[0], text[1..]);
      if c in " \t\n" then ParseTok(g, rest)
      else if c == '(' then
        var body := ParseBody(g, rest, UnGroup);
        if body.None? then None else Some(Read(Group(body.value.got), body.value.rest))
      else if c == ')' then Some(Read(UnGroup, rest))
      else if c == '[' then
        var body := ParseBody(g, rest, UnStack);
        if body.None? then None else Some(Read(Stack(body.value.got), body.value.rest))
      else if c == ']' then Some(Read(UnStack, rest))
      else if c == '@' then
        var r := ParseChar(rest);
        if r.None? then None else Some(Read(Lit(CharV(r.value.got)), r.value.rest))
      else if c == '\'' then
        var r := ParseStr(rest, 0 as char);
        if r.None? then None else Some(Read(Lit(StrV(r.value.got)), r.value.rest))
      else if StartsNum(text) then ParseNumTok(text)
      else if c == ',' && (rest == [] || rest[0] != '<') then Some(Read(Id(","), PushedBack(rest)))
      else if c in "-./" then ParseOther(g, [c] + PushedBack(rest))
      else ParseOther(g, text)
  }

  /** parse_group and parse_stack: tokens up to the closing one. */
  function ParseBody(g: Lang, text: string, close: Tok): (r: Option<Read<seq<Tok>>>)
    ensures r.Some? ==> |r.value.rest| < |text|
    decreases |text|, 1
  {
    var t := ParseTok(g, text);
    if t.None? then None
    else if t.value.got == close then Some(Read([], t.value.rest))
    else
      var more := ParseBody(g, t.value.rest, close);
      if more.None? then None else Some(Read([t.value.got] + more.value.got, more.value.rest))
  }

  /** Evaluating tokens on a stack: a group's values move to the stack around it, a
      stack literal's become one value, and `,` pairs the last two. */
  function Eval(g: Lang, toks: seq<Tok>, stack: seq<Val>): Option<seq<Val>>
    decreases toks, 0
  {
    if toks == [] then Some(stack)
    else
      var r := EvalTok(g, toks[0], stack);
      if r.None? then None else Eval(g, toks[1..], r.value)
  }

  function EvalTok(g: Lang, t: Tok, stack: seq<Val>): Option<seq<Val>>
    decreases t, 0
  {
    match t
    case Lit(v) => Some(stack + [v])
    case Group(body) =>
      var r := Eval(g, body, []);
      if r.None? then None else Some(stack + r.value)
    case Stack(body) =>
      var r := Eval(g, body, []);
      if r.None? then None else Some(stack + [StackV(r.value)])
    case UnGroup => None
    case UnStack => None
    case _ =>
      if t != Id(",") then g.run(t, stack)
      else if |stack| >= 2 then Some(stack[..|stack| - 2] + [PairV(stack[|stack| - 2], stack[|stack| - 1])])
      else None
  }

  // ---- chars ---------------------------------------------------------------

  /** What may follow a written value. */
  predicate Stops(rest: string) {
    rest == [] || rest[0] in " ],"
  }

  /** What a string's '@' must not be followed by. */
  predicate Special(c: char) {
    c in "nrst" || IsDigit(c)
  }

  lemma CodeOf(n: nat, rest: string)
    requires n < 256
    ensures var t := ThreeDigits(n) + rest;
            IsDigit(t[0]) && IsDigit(t[1]) && IsDigit(t[2]) && Code(t) == n && t[3..] == rest
  {
    assert (ThreeDigits(n) + rest)[3..] == rest;
  }

  /** '@' and a letter */
  lemma LetterRead(x: char, rest: string)
    requires x == 'n' || x == 'r' || x == 's' || x == 't'
    ensures ParseChar("@" + [x] + rest) == Some(Read(Letter(x), rest))
  {
    var t := "@" + [x] + rest;
    assert t[1..] == [x] + rest && ([x] + rest)[1..] == rest;
  }

  /** '@' and three digits */
  lemma CodeRead(n: nat, rest: string)
    requires n < 256
    ensures ParseChar("@" + ThreeDigits(n) + rest) == Some(Read(n as char, rest))
  {
    var t := "@" + ThreeDigits(n) + rest;
    CodeOf(n, rest);
    assert t[1..] == ThreeDigits(n) + rest;
  }

  function Letter(c: char): char {
    if c == 'n' then '\n' else if c == 'r' then '\r' else if c == 's' then ' ' else '\t'
  }

  lemma CharReadsBack(c: char, rest: string)
    requires IsByte(c) && Stops(rest)
    ensures WriteChar(c) != [] && WriteChar(c)[0] == '@' && ParseChar(WriteChar(c)[1..] + rest) == Some(Read(c, rest))
  {
    hide ThreeDigits;
    if c == '\n' {
      assert WriteChar(c)[1..] == "@" + ['n'];
      LetterRead('n', rest);
    } else if c == '\r' {
      assert WriteChar(c)[1..] == "@" + ['r'];
      LetterRead('r', rest);
    } else if c == ' ' {
      assert WriteChar(c)[1..] == "@" + ['s'];
      LetterRead('s', rest);
    } else if c == '\t' {
      assert WriteChar(c)[1..] == "@" + ['t'];
      LetterRead('t', rest);
    } else if IsGraph(c) {
      assert WriteChar(c)[1..] == [c] && ([c] + rest)[1..] == rest;
    } else {
      assert WriteChar(c)[1..] == "@" + ThreeDigits(c as int);
      CodeRead(c as int, rest);
    }
  }

  // ---- strings -------------------------------------------------------------

  /** No '@' directly before n, r, s, t or a digit, and no backslash at the end. */
  predicate Clean(s: string) {
    && (forall i :: 0 <= i < |s| - 1 && s[i] == '@' ==> !Special(s[i + 1]))
    && (s == [] || s[|s| - 1] != '\\')
  }

  lemma EncodedHead(s: string, tail: string)
    requires Bytes(s) && s != []
    ensures Encode(s) + tail == EncodeChar(s[0]) + (Encode(s[1..]) + tail)
    ensures Encode(s) != [] && Encode(s)[0] == EncodeChar(s[0])[0]
  {
    hide EncodeChar;
    CharNotEmpty(s[0]);
    EncodeUnfolds(s);
    hide Encode;
  }

  lemma CharNotEmpty(c: char)
    requires IsByte(c)
    ensures EncodeChar(c) != []
  {
  }

  lemma EncodeUnfolds(s: string)
    requires Bytes(s) && s != []
    ensures IsByte(s[0]) && Encode(s) == EncodeChar(s[0]) + Encode(s[1..])
  {
    hide EncodeChar;
  }

  lemma CharHead(c: char)
    requires IsByte(c)
    ensures (EncodeChar(c)[0] == c || EncodeChar(c)[0] == '@') && !IsEof(EncodeChar(c)[0])
    ensures Special(c) ==> EncodeChar(c) == [c]
  {
  }

  /** What the text of a string and its closing quote begin with. */
  lemma TextHead(s: string, rest: string)
    requires Bytes(s)
    ensures var t := Encode(s) + "'" + rest;
            && !IsEof(t[0])
            && (Special(t[0]) <==> s != [] && Special(s[0]))
            && (Special(t[0]) ==> t[0] == s[0] && t[1..] == Encode(s[1..]) + "'" + rest)
  {
    var t := Encode(s) + "'" + rest;
    if s != [] {
      EncodedHead(s, "'" + rest);
      CharHead(s[0]);
      assert t == EncodeChar(s[0]) + (Encode(s[1..]) + ("'" + rest));
      assert Encode(s[1..]) + ("'" + rest) == Encode(s[1..]) + "'" + rest;
    }
  }

  function Then(c: char, more: Option<Read<string>>): Option<Read<string>> {
    if more.None? then None else Some(Read([c] + more.value.got, more.value.rest))
  }

  /** One character other than '@' is read back, whatever follows. */
  lemma EncodedRead(c: char, tail: string, pc: char)
    requires IsByte(c) && c != '@' && tail != []
    ensures ParseStr(EncodeChar(c) + tail, pc) == Then(c, ParseStr(tail, c))
  {
    hide ThreeDigits;
    var t := EncodeChar(c) + tail;
    if c == '\n' {
      assert EncodeChar(c) == "@" + ['n'];
      LetterRead('n', tail);
    } else if c == '\r' {
      assert EncodeChar(c) == "@" + ['r'];
      LetterRead('r', tail);
    } else if c == '\t' {
      assert EncodeChar(c) == "@" + ['t'];
      LetterRead('t', tail);
    } else if c == ' ' || (IsGraph(c) && c != '\'') {
      assert t == [c] + tail && t[1..] == tail;
    } else {
      CodeRead(c as int, tail);
    }
  }

  /** An '@' is read back unless something special follows. */
  lemma AtRead(tail: string, pc: char)
    requires tail != [] && !Special(tail[0]) && !IsEof(tail[0])
    ensures ParseStr("@" + tail, pc) == Then('@', ParseStr(tail, '@'))
  {
    var t := "@" + tail;
    assert t[1..] == tail;
    assert ParseChar(t) == Some(Read('@', tail));
  }

  /** The first character of a string is read back, and the rest is read on. */
  lemma HeadRead(s: string, rest: string, pc: char)
    requires Bytes(s) && s != [] && !(s[0] == '@' && |s| > 1 && Special(s[1]))
    ensures ParseStr(Encode(s) + "'" + rest, pc) == Then(s[0], ParseStr(Encode(s[1..]) + "'" + rest, s[0]))
  {
    assert EncodeChar('@') == "@";
    hide ParseStr, EncodeChar;
    var t := Encode(s[1..]) + "'" + rest;
    EncodedHead(s, "'" + rest);
    assert Encode(s) + "'" + rest == EncodeChar(s[0]) + t by {
      assert Encode(s) + "'" + rest == Encode(s) + ("'" + rest);
      assert Encode(s[1..]) + ("'" + rest) == t;
    }
    if s[0] == '@' {
      TextHead(s[1..], rest);
      AtRead(t, pc);
    } else {
      EncodedRead(s[0], t, pc);
    }
  }

  lemma CleanTail(s: string)
    requires s != []
    ensures Clean(s) <==> Clean(s[1..]) && (|s| == 1 ==> s[0] != '\\') && (|s| > 1 && s[0] == '@' ==> !Special(s[1]))
  {
    if Clean(s) {
      forall i | 0 <= i < |s| - 2 && s[1..][i] == '@' ensures !Special(s[1..][i + 1]) { assert s[i + 1] == '@'; }
    }
    if Clean(s[1..]) && (|s| > 1 && s[0] == '@' ==> !Special(s[1])) {
      forall i | 0 <= i < |s| - 1 && s[i] == '@' ensures !Special(s[i + 1]) {
        if i > 0 { assert s[1..][i - 1] == '@' && s[1..][i] == s[i + 1]; }
      }
    }
  }

  lemma {:induction false} StrReadsBack(s: string, rest: string, pc: char)
    requires Bytes(s) && Clean(s) && (s == [] ==> pc != '\\')
    ensures ParseStr(Encode(s) + "'" + rest, pc) == Some(Read(s, rest))
    decreases |s|
  {
    hide Clean;
    if s == [] {
      assert Encode(s) + "'" + rest == "'" + rest;
    } else {
      CleanTail(s);
      HeadRead(s, rest, pc);
      hide ParseStr;
      StrReadsBack(s[1..], rest, s[0]);
      assert [s[0]] + s[1..] == s;
    }
  }

  // ---- strings that are not clean ------------------------------------------

  /** '@' and a letter, '@' and a code, '@' and a broken code. */
  lemma AtSpecial(t: string, pc: char)
    requires |t| > 1 && t[0] == '@' && Special(t[1])
    ensures !IsDigit(t[1]) ==> ParseStr(t, pc) == Then(Letter(t[1]), ParseStr(t[2..], Letter(t[1])))
    ensures IsDigit(t[1]) && |t| > 3 && IsDigit(t[2]) && IsDigit(t[3]) ==>
              var c := (Code(t[1..]) % 256) as char; ParseStr(t, pc) == Then(c, ParseStr(t[4..], c))
    ensures IsDigit(t[1]) && !(|t| > 3 && IsDigit(t[2]) && IsDigit(t[3])) ==> ParseStr(t, pc).None?
  {
    assert t[1..][1..] == t[2..];
    if |t| > 3 { assert t[1..][3..] == t[4..]; }
  }

  /** Three digits behind an '@' are the string's own. */
  lemma CodeTail(s: string, rest: string)
    requires Bytes(s) && |s| > 1 && IsDigit(s[1])
    requires var t := Encode(s[1..]) + "'" + rest; |t| > 2 && IsDigit(t[1]) && IsDigit(t[2])
    ensures |s| >= 4 && IsDigit(s[2]) && IsDigit(s[3])
    ensures (Encode(s[1..]) + "'" + rest)[3..] == Encode(s[4..]) + "'" + rest
  {
    hide Encode;
    var t := Encode(s[1..]) + "'" + rest;
    TextHead(s[1..], rest);
    assert s[1..][1..] == s[2..] && t[1..] == Encode(s[2..]) + "'" + rest;
    TextHead(s[2..], rest);
    assert s[2..][1..] == s[3..] && t[1..][1..] == t[2..];
    TextHead(s[3..], rest);
    assert s[3..][1..] == s[4..] && t[2..][1..] == t[3..];
  }

  lemma AtText(s: string, rest: string)
    requires Bytes(s) && |s| > 1 && s[0] == '@' && Special(s[1])
    ensures var t := Encode(s) + "'" + rest;
            && |t| > 1 && t[0] == '@' && t[1] == s[1]
            && t[1..] == Encode(s[1..]) + "'" + rest && t[2..] == Encode(s[2..]) + "'" + rest
  {
    var t := Encode(s) + "'" + rest;
    EncodedHead(s, "'" + rest);
    assert t == "@" + (Encode(s[1..]) + "'" + rest)
             by { assert Encode(s[1..]) + ("'" + rest) == Encode(s[1..]) + "'" + rest; }
    TextHead(s[1..], rest);
    assert t[2..] == t[1..][1..] && s[1..][1..] == s[2..];
  }

  /** '@' and something special: two or four characters of the string become one. */
  lemma Swallowed(s: string, rest: string, pc: char) returns (n: nat, c: char)
    requires Bytes(s) && |s| > 1 && s[0] == '@' && Special(s[1])
    ensures ParseStr(Encode(s) + "'" + rest, pc).Some? ==>
              && (n == 2 || n == 4) && n <= |s| && (n == 2 ==> c != '@')
              && (forall i :: 1 <= i < n ==> Special(s[i]))
              && ParseStr(Encode(s) + "'" + rest, pc) == Then(c, ParseStr(Encode(s[n..]) + "'" + rest, c))
  {
    hide ParseStr, Encode;
    var t := Encode(s) + "'" + rest;
    AtText(s, rest);
    AtSpecial(t, pc);
    if IsDigit(s[1]) && |t| > 3 && IsDigit(t[2]) && IsDigit(t[3]) {
      assert t[1..][1] == t[2] && t[1..][2] == t[3] && t[1..][3..] == t[4..];
      CodeTail(s, rest);
      n, c := 4, (Code(t[1..]) % 256) as char;
    } else {
      n, c := 2, Letter(s[1]);
    }
  }

  /** Reading never finds more characters than were written before the quote. */
  lemma {:induction false} ReadsNoMore(s: string, rest: string, pc: char)
    requires Bytes(s) && ParseStr(Encode(s) + "'" + rest, pc).Some?
    requires ParseStr(Encode(s) + "'" + rest, pc).value.rest == rest
    ensures |ParseStr(Encode(s) + "'" + rest, pc).value.got| <= |s|
    ensures s == [] ==> pc != '\\'
    decreases |s|
  {
    if s == [] {
      assert Encode(s) + "'" + rest == "'" + rest && ("'" + rest)[1..] == rest;
    } else if s[0] == '@' && |s| > 1 && Special(s[1]) {
      var n, c := Swallowed(s, rest, pc);
      hide ParseStr, Encode;
      ReadsNoMore(s[n..], rest, c);
    } else {
      HeadRead(s, rest, pc);
      ReadsNoMore(s[1..], rest, s[0]);
    }
  }

  lemma {:induction false} OnlyCleanReadsBack(s: string, rest: string, pc: char)
    requires Bytes(s) && ParseStr(Encode(s) + "'" + rest, pc) == Some(Read(s, rest))
    ensures Clean(s) && (s == [] ==> pc != '\\')
    decreases |s|
  {
    ReadsNoMore(s, rest, pc);
    if s != [] {
      if s[0] == '@' && |s| > 1 && Special(s[1]) {
        var n, c := Swallowed(s, rest, pc);
        ReadsNoMore(s[n..], rest, c);
        assert false;
      }
      HeadRead(s, rest, pc);
      OnlyCleanReadsBack(s[1..], rest, s[0]);
      CleanTail(s);
    }
  }

  /** A written string reads back as itself exactly if it is clean, whatever follows. */
  lemma StrRoundTrip(s: string, rest: string)
    requires Bytes(s)
    ensures ParseStr(Encode(s) + "'" + rest, 0 as char) == Some(Read(s, rest)) <==> Clean(s)
  {
    if Clean(s) { StrReadsBack(s, rest, 0 as char); }
    if ParseStr(Encode(s) + "'" + rest, 0 as char) == Some(Read(s, rest)) { OnlyCleanReadsBack(s, rest, 0 as char); }
  }
}
