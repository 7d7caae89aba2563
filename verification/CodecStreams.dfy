/** The writer and the reader as they run: characters go to an output stream one by
    one and come from an input stream with pushback.  Rows and columns are left out. */
module CodecStreams {
  import opened Basics
  import opened Codec

  class Output {
    var data: string

    constructor ()
      ensures data == []
    {
      data := [];
    }

    /** fputs */
    method Puts(s: string)
      modifies this
      ensures data == old(data) + s
    {
      data := data + s;
    }
  }

  const EOF: int := -1

  /** A number that stands for a character. */
  predicate IsChar(c: int) {
    0 <= c < 0xD800 || 0xE000 <= c < 0x11_0000
  }

  /** What is still to be read. */
  class Input {
    var left: string

    constructor (text: string)
      ensures left == text
    {
      left := text;
    }

    /** (char)fgetc: the end of the input and the byte 255 look the same. */
    method Getc() returns (c: int)
      modifies this
      ensures old(left) == [] ==> c == EOF && left == []
      ensures old(left) != [] ==>
                && left == old(left)[1..]
                && c == if IsEof(old(left)[0]) then EOF else old(left)[0] as int
      ensures c >= 0 ==> IsChar(c)
    {
      if left == [] { return EOF; }
      c := if IsEof(left[0]) then EOF else left[0] as int;
      left := left[1..];
    }

    /** ungetc; pushing EOF back does nothing. */
    method Ungetc(c: int)
      requires c >= 0 ==> IsChar(c)
      modifies this
      ensures left == (if c < 0 then [] else [c as char]) + old(left)
    {
      if c >= 0 { left := [c as char] + left; }
    }

    /** Takes the first `n` characters. */
    method Skip(n: nat)
      requires n <= |left|
      modifies this
      ensures left == old(left)[n..]
    {
      left := left[n..];
    }
  }

  predicate CharIs(c: int, x: char) {
    c == x as int
  }

  predicate DigitIs(c: int) {
    48 <= c <= 57
  }

  // ---- writing -------------------------------------------------------------

  /** cx_cstr_encode */
  method EncodeTo(s: string, out: Output)
    requires Bytes(s)
    modifies out
    ensures out.data == old(out.data) + Encode(s)
  {
    hide Encode;
    var i := 0;
    assert s[0..] == s;
    while i < |s|
      invariant i <= |s| && out.data + Encode(s[i..]) == old(out.data) + Encode(s)
    {
      EncodeStep(s, i);
      ghost var was := out.data;
      PutEncoded(s[i], out);
      assert was + (EncodeChar(s[i]) + Encode(s[i + 1..])) == out.data + Encode(s[i + 1..]);
      i := i + 1;
    }
    EncodeEnd(s);
  }

  lemma EncodeStep(s: string, i: nat)
    requires Bytes(s) && i < |s|
    ensures IsByte(s[i]) && Encode(s[i..]) == EncodeChar(s[i]) + Encode(s[i + 1..])
  {
    assert s[i] in s && s[i..][0] == s[i] && s[i..][1..] == s[i + 1..];
  }

  lemma EncodeEnd(s: string)
    requires Bytes(s)
    ensures Encode(s[|s|..]) == []
  {
  }

  method PutEncoded(c: char, out: Output)
    requires IsByte(c)
    modifies out
    ensures out.data == old(out.data) + EncodeChar(c)
  {
    match c {
      case ' ' => out.Puts(" ");
      case '\n' => out.Puts("@n");
      case '\r' => out.Puts("@r");
      case '\t' => out.Puts("@t");
      case _ =>
        if IsGraph(c) && c != '\'' { out.Puts([c]); } else { out.Puts("@" + ThreeDigits(c as int)); }
    }
  }

  /** The write function of each type. */
  method WriteTo(v: Val, out: Output)
    requires Writable(v)
    modifies out
    ensures out.data == old(out.data) + Write(v)
    decreases v, 1
  {
    hide WriteInt, WriteChar, Encode, WriteItems;
    match v
    case IntV(i) => out.Puts(WriteInt(i));
    case CharV(c) => out.Puts(WriteChar(c));
    case StrV(s) =>
      out.Puts("'");
      EncodeTo(s, out);
      out.Puts("'");
      assert out.data == old(out.data) + ("'" + Encode(s) + "'");
    case StackV(items) =>
      out.Puts("[");
      WriteItemsTo(items, out);
      out.Puts("]");
      assert out.data == old(out.data) + ("[" + WriteItems(items) + "]");
    case PairV(a, b) => WritePairTo(a, b, out);
  }

  method WritePairTo(a: Val, b: Val, out: Output)
    requires Writable(a) && Writable(b)
    modifies out
    ensures out.data == old(out.data) + ("(" + Write(a) + " " + Write(b) + ",)")
    decreases PairV(a, b), 0
  {
    hide Write;
    out.Puts("(");
    WriteTo(a, out);
    out.Puts(" ");
    WriteTo(b, out);
    out.Puts(",)");
  }

  /** The separator is only there from the second item on. */
  method WriteItemsTo(items: seq<Val>, out: Output)
    requires forall x :: x in items ==> Writable(x)
    modifies out
    ensures out.data == old(out.data) + WriteItems(items)
    decreases items, 0
  {
    hide Write, WriteItems, ItemsFrom;
    var i, sep := 0, "";
    ItemsEnds(items);
    while i < |items|
      invariant i <= |items| && sep == if i > 0 then " " else ""
      invariant out.data + ItemsFrom(items, i) == old(out.data) + WriteItems(items)
    {
      ItemsStep(items, i);
      ghost var was := out.data;
      out.Puts(sep);
      WriteTo(items[i], out);
      Regroup(was, sep, Write(items[i]), ItemsFrom(items, i + 1));
      sep := " ";
      i := i + 1;
    }
  }

  lemma Regroup(a: string, b: string, c: string, d: string)
    ensures a + (b + c + d) == a + b + c + d
  {
  }

  lemma ItemsEnds(items: seq<Val>)
    requires forall x :: x in items ==> Writable(x)
    ensures ItemsFrom(items, 0) == WriteItems(items) && ItemsFrom(items, |items|) == ""
  {
    hide Write, WriteItems;
    assert items[0..] == items;
    if items == [] { NoItems(); }
  }

  lemma NoItems()
    ensures WriteItems([]) == ""
  {
  }

  /** What is still to come when `i` items are written. */
  function ItemsFrom(items: seq<Val>, i: nat): string
    requires i <= |items| && forall x :: x in items ==> Writable(x)
  {
    if i == |items| then "" else (if i > 0 then " " else "") + WriteItems(items[i..])
  }

  lemma ItemsStep(items: seq<Val>, i: nat)
    requires i < |items| && forall x :: x in items ==> Writable(x)
    ensures ItemsFrom(items, i) == (if i > 0 then " " else "") + Write(items[i]) + ItemsFrom(items, i + 1)
  {
    assert items[i..][0] == items[i] && items[i..][1..] == items[i + 1..];
  }

  // ---- reading -------------------------------------------------------------

  /** parse_char, behind the first '@' */
  method ReadChar(input: Input) returns (r: Option<char>)
    modifies input
    ensures ParseChar(old(input.left)) == if r.None? then None else Some(Read(r.value, input.left))
  {
    ghost var t := input.left;
    var c := input.Getc();
    if c == EOF { return None; }
    if CharIs(c, '@') {
      assert t[0] == '@' && input.left == t[1..];
      c := input.Getc();
      if CharIs(c, 'n') { return Some('\n'); }
      if CharIs(c, 'r') { return Some('\r'); }
      if CharIs(c, 's') { return Some(' '); }
      if CharIs(c, 't') { return Some('\t'); }
      input.Ungetc(c);
      assert input.left == PushedBack(t[1..]);
      if DigitIs(c) {
        r := ReadCode(input);
      } else {
        r := Some('@');
      }
    } else {
      r := Some(c as char);
    }
  }

  /** Three digits, and what they stand for in a byte. */
  method ReadCode(input: Input) returns (r: Option<char>)
    modifies input
    ensures var t := old(input.left);
            if |t| >= 3 && IsDigit(t[0]) && IsDigit(t[1]) && IsDigit(t[2])
            then r == Some((Code(t) % 256) as char) && input.left == t[3..] else r.None?
  {
    ghost var t := input.left;
    var i, m, sum: nat := 0, 100, 0;
    while i < 3
      invariant 0 <= i <= 3 && i <= |t| && input.left == t[i..]
      invariant forall k :: 0 <= k < i ==> IsDigit(t[k])
      invariant m == (if i == 0 then 100 else if i == 1 then 10 else if i == 2 then 1 else 0)
      invariant sum == (if i > 0 then 100 * DigitVal(t[0]) else 0) + (if i > 1 then 10 * DigitVal(t[1]) else 0)
                       + (if i > 2 then DigitVal(t[2]) else 0)
      decreases 3 - i
    {
      var c := input.Getc();
      if !DigitIs(c) { return None; }
      sum := sum + (c - 48) * m;
      i, m := i + 1, m / 10;
    }
    return Some((sum % 256) as char);
  }

  /** parse_str, behind the opening quote */
  method ReadStr(input: Input) returns (r: Option<string>)
    modifies input
    ensures ParseStr(old(input.left), 0 as char) == if r.None? then None else Some(Read(r.value, input.left))
  {
    ghost var t := input.left;
    var value, pc: char := [], 0 as char;
    assert ParseStr(t, pc).Some? ==> value + ParseStr(t, pc).value.got == ParseStr(t, pc).value.got;
    while true
      invariant ParseStr(t, 0 as char) ==
                  var more := ParseStr(input.left, pc);
                  if more.None? then None else Some(Read(value + more.value.got, more.value.rest))
      decreases |input.left|
    {
      ghost var left := input.left;
      var c := input.Getc();
      if c == EOF { return None; }
      if CharIs(c, '\'') && pc != '\\' {
        assert value + [] == value;
        return Some(value);
      }
      var x := c as char;
      if x == '@' {
        input.Ungetc(c);
        assert input.left == left;
        var d := ReadChar(input);
        if d.None? { return None; }
        x := d.value;
      }
      Appended(value, x, ParseStr(input.left, x));
      value, pc := value + [x], x;
    }
  }

  lemma Appended(s: string, c: char, more: Option<Read<string>>)
    ensures more.Some? ==> s + ([c] + more.value.got) == s + [c] + more.value.got
  {
  }

  lemma NumStep(t: string, k: nat)
    requires k <= |t|
    ensures NumLength(t[k..]) == if k < |t| && (IsDigit(t[k]) || t[k] == '.') then 1 + NumLength(t[k + 1..]) else 0
  {
    if k < |t| { assert t[k..][1..] == t[k + 1..]; }
  }

  /** The characters taken are the number; a point among them makes it a float. */
  lemma NumSpan(t: string, s: string)
    requires s != [] && |s| <= |t| && s == t[..|s|] && NumLength(t[|s|..]) == 0
    requires |s| + NumLength(t[|s|..]) == 1 + NumLength(t[1..])
    requires IsDigit(t[0]) || (t[0] == '-' && |t| > 1 && IsDigit(t[1]))
    requires forall i :: 0 < i < |s| ==> IsDigit(s[i]) || s[i] == '.'
    ensures '.' in s ==> ParseNum(t).None?
    ensures '.' !in s ==>
              (var digits := if s[0] == '-' then s[1..] else s;
               && AllDigits(digits)
               && var v := if s[0] == '-' then 0 - NatVal(digits) else NatVal(digits);
                  ParseNum(t) == if INT64_MIN <= v <= INT64_MAX then Some(Read(v, PushedBack(t[|s|..]))) else None)
  {
    hide NatVal, NumLength;
    var n := 1 + NumLength(t[1..]);
    assert n == |s|;
    var digits := if t[0] == '-' then t[1..n] else t[..n];
    assert s[0] == t[0] && digits == if s[0] == '-' then s[1..] else s;
    if '.' in s {
      var i :| 0 <= i < |s| && s[i] == '.';
      var k := if s[0] == '-' then i - 1 else i;
      assert digits[k] == '.' && digits[k] in digits;
    }
  }

  /** parse_num */
  method ReadNum(input: Input) returns (r: Option<Tok>)
    requires StartsNum(input.left)
    modifies input
    ensures ParseNumTok(old(input.left)) == if r.None? then None else Some(Read(r.value, input.left))
  {
    hide NatVal, ParseNum, NumLength;
    ghost var t := input.left;
    var s, isFloat := ReadDigits(input);
    assert s[0] == t[0];
    if isFloat { return Some(Float(s)); }
    NumSpan(t, s);
    var v := if s[0] == '-' then 0 - NatVal(s[1..]) else NatVal(s);
    return if INT64_MIN <= v <= INT64_MAX then Some(Lit(IntV(v))) else None;
  }

  lemma TakeOne(t: string, k: nat)
    requires k <= |t|
    ensures t[k..] == [] <==> k == |t|
    ensures k < |t| ==>
              && t[k..][0] == t[k] && t[k..][1..] == t[k + 1..] && t[..k] + [t[k]] == t[..k + 1]
              && [t[k]] + t[k + 1..] == t[k..]
  {
  }

  /** The characters of the number, up to the first one that is not part of it. */
  method ReadDigits(input: Input) returns (s: string, isFloat: bool)
    requires input.left != [] && !IsEof(input.left[0])
    modifies input
    ensures var t := old(input.left);
            && 0 < |s| <= |t| && s == t[..|s|] && |s| == 1 + NumLength(t[1..]) && NumLength(t[|s|..]) == 0
            && (isFloat <==> '.' in s) && (forall i :: 0 < i < |s| ==> IsDigit(s[i]) || s[i] == '.')
            && input.left == PushedBack(t[|s|..])
  {
    hide NumLength;
    ghost var t := input.left;
    s, isFloat := [], false;
    NumStep(t, |t|);
    while true
      invariant |s| <= |t| && s == t[..|s|] && input.left == t[|s|..]
      invariant isFloat <==> '.' in s
      invariant |s| > 0 ==> |s| + NumLength(t[|s|..]) == 1 + NumLength(t[1..])
      invariant s == [] ==> t != [] && !IsEof(t[0])
      invariant forall i :: 0 < i < |s| ==> IsDigit(s[i]) || s[i] == '.'
      decreases |t| - |s|
    {
      NumStep(t, |s|);
      TakeOne(t, |s|);
      var c := input.Getc();
      if c == EOF { break; }
      if s != [] && !DigitIs(c) && !CharIs(c, '.') {
        input.Ungetc(c);
        break;
      }
      if CharIs(c, '.') { isFloat := true; }
      s := s + [c as char];
    }
  }

  /** cx_parse_tok */
  method ReadTok(g: Lang, input: Input) returns (r: Option<Tok>)
    modifies input
    ensures ParseTok(g, old(input.left)) == if r.None? then None else Some(Read(r.value, input.left))
    decreases |input.left|, 0
  {
    hide ParseStr, ParseChar, ParseNum, ParseBody;
    ghost var t := input.left;
    while true
      invariant ParseTok(g, t) == ParseTok(g, input.left) && |input.left| <= |t|
      decreases |input.left|
    {
      ghost var left := input.left;
      var c := input.Getc();
      if c == EOF { return None; }
      var x := c as char;
      match x {
        case ' ' =>
        case '\t' =>
        case '\n' =>
        case '(' =>
          var body := ReadBody(g, input, UnGroup);
          return if body.None? then None else Some(Group(body.value));
        case ')' => return Some(UnGroup);
        case '[' =>
          var body := ReadBody(g, input, UnStack);
          return if body.None? then None else Some(Stack(body.value));
        case ']' => return Some(UnStack);
        case '@' =>
          var d := ReadChar(input);
          return if d.None? then None else Some(Lit(CharV(d.value)));
        case '\'' =>
          var s := ReadStr(input);
          return if s.None? then None else Some(Lit(StrV(s.value)));
        case _ =>
          assert [x] + input.left == left;
          r := ReadOther(g, input, c);
          return;
      }
    }
  }

  lemma OtherTok(g: Lang, c: char, rest: string)
    requires c !in " \t\n()[]@'" && !IsEof(c)
    ensures var t := [c] + rest;
            ParseTok(g, t) ==
              if StartsNum(t) then ParseNumTok(t)
              else if c == ',' && (rest == [] || rest[0] != '<') then Some(Read(Id(","), PushedBack(rest)))
              else ParseOther(g, if c in "-./" then [c] + PushedBack(rest) else t)
  {
    hide ParseNumTok, ParseStr, ParseChar, ParseBody, PushedBack, ParseOther;
    assert ([c] + rest)[1..] == rest;
  }

  /** Numbers, the pair function, and the rest of the language; `c` has been read. */
  method ReadOther(g: Lang, input: Input, c: int) returns (r: Option<Tok>)
    requires IsChar(c) && (c as char) !in " \t\n()[]@'" && !IsEof(c as char)
    modifies input
    ensures ParseTok(g, [c as char] + old(input.left)) == if r.None? then None else Some(Read(r.value, input.left))
  {
    hide ParseTok, ParseNumTok;
    ghost var rest := input.left;
    OtherTok(g, c as char, rest);
    var isNum := DigitIs(c);
    if CharIs(c, '-') || CharIs(c, '.') || CharIs(c, '/') {
      var c1 := input.Getc();
      input.Ungetc(c1);
      assert input.left == PushedBack(rest);
      isNum := !CharIs(c, '/') && DigitIs(c1);
    } else if CharIs(c, ',') {
      var c1 := input.Getc();
      input.Ungetc(c1);
      assert input.left == PushedBack(rest);
      if !CharIs(c1, '<') { return Some(Id(",")); }
    }
    input.Ungetc(c);
    if isNum {
      assert input.left == [c as char] + rest;
      r := ReadNum(input);
    } else {
      r := Elsewhere(g, input);
    }
  }

  /** parse_id, parse_sym, parse_lambda, macros and comments. */
  method Elsewhere(g: Lang, input: Input) returns (r: Option<Tok>)
    modifies input
    ensures ParseOther(g, old(input.left)) == if r.None? then None else Some(Read(r.value, input.left))
  {
    var x := g.read(input.left);
    if x.None? || x.value.1 == 0 || x.value.1 > |input.left| { return None; }
    input.Skip(x.value.1);
    return Some(x.value.0);
  }

  /** parse_group and parse_stack: tokens are read until the closing one comes. */
  method ReadBody(g: Lang, input: Input, close: Tok) returns (r: Option<seq<Tok>>)
    modifies input
    ensures ParseBody(g, old(input.left), close) == if r.None? then None else Some(Read(r.value, input.left))
    decreases |input.left|, 1
  {
    hide ParseTok;
    ghost var t := input.left;
    var body := [];
    assert ParseBody(g, t, close).Some? ==> body + ParseBody(g, t, close).value.got == ParseBody(g, t, close).value.got;
    while true
      invariant |input.left| <= |t|
      invariant ParseBody(g, t, close) ==
                  var more := ParseBody(g, input.left, close);
                  if more.None? then None else Some(Read(body + more.value.got, more.value.rest))
      decreases |input.left|
    {
      var tok := ReadTok(g, input);
      if tok.None? { return None; }
      if tok.value == close {
        assert body + [] == body;
        return Some(body);
      }
      Joined(body, tok.value, ParseBody(g, input.left, close));
      body := body + [tok.value];
    }
  }

  lemma Joined(body: seq<Tok>, t: Tok, more: Option<Read<seq<Tok>>>)
    ensures more.Some? ==> body + ([t] + more.value.got) == body + [t] + more.value.got
  {
  }
}
