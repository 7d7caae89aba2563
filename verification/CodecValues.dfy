/** Reading back whole values: ints, chars, strings, and stacks and pairs of them. */
module CodecValues {
  import opened Basics
  import opened Codec

  /** Writable, with clean strings only. */
  predicate Readable(v: Val) {
    match v
    case IntV(i) => INT64_MIN <= i <= INT64_MAX
    case CharV(c) => IsByte(c)
    case StrV(s) => Bytes(s) && Clean(s)
    case StackV(items) => forall x :: x in items ==> Readable(x)
    case PairV(a, b) => Readable(a) && Readable(b)
  }

  lemma {:induction false} ReadableWritable(v: Val)
    requires Readable(v)
    ensures Writable(v)
  {
    match v
    case StackV(items) => forall x | x in items ensures Writable(x) { ReadableWritable(x); }
    case PairV(a, b) => ReadableWritable(a); ReadableWritable(b);
    case _ =>
  }

  // ---- numbers -------------------------------------------------------------

  lemma {:induction false} NatReadsBack(n: nat)
    ensures WriteNat(n) != [] && AllDigits(WriteNat(n)) && NatVal(WriteNat(n)) == n
  {
    if n >= 10 {
      NatReadsBack(n / 10);
      assert WriteNat(n)[..|WriteNat(n)| - 1] == WriteNat(n / 10);
    }
  }

  lemma {:induction false} DigitsEnd(s: string, rest: string)
    requires AllDigits(s) && Stops(rest)
    ensures NumLength(s + rest) == |s|
    decreases |s|
  {
    if s == [] {
      assert s + rest == rest;
    } else {
      assert (s + rest)[1..] == s[1..] + rest;
      DigitsEnd(s[1..], rest);
    }
  }

  lemma IntReadsBack(i: int, rest: string)
    requires INT64_MIN <= i <= INT64_MAX && Stops(rest)
    ensures var t := WriteInt(i) + rest;
            StartsNum(t) && ParseNumTok(t) == Some(Read(Lit(IntV(i)), rest))
  {
    hide NumLength, NatVal, WriteNat;
    var d := WriteNat(if i < 0 then -i else i);
    NatReadsBack(if i < 0 then -i else i);
    if i < 0 { NegReadsBack(d, rest); } else { PosReadsBack(d, rest); }
  }

  lemma NegReadsBack(d: string, rest: string)
    requires d != [] && AllDigits(d) && Stops(rest) && 0 - NatVal(d) >= INT64_MIN
    ensures var t := "-" + d + rest;
            StartsNum(t) && ParseNumTok(t) == Some(Read(Lit(IntV(0 - NatVal(d))), rest))
  {
    hide NumLength, NatVal;
    var t := "-" + d + rest;
    DigitsEnd(d, rest);
    assert t[1..] == d + rest;
    assert d[0] in d && t[1] == d[0];
    assert t[1..1 + |d|] == d && t[1 + |d|..] == rest && t[..1 + |d|] == "-" + d;
    assert '.' !in "-" + d;
  }

  lemma PosReadsBack(d: string, rest: string)
    requires d != [] && AllDigits(d) && Stops(rest) && NatVal(d) <= INT64_MAX
    ensures var t := d + rest; StartsNum(t) && ParseNumTok(t) == Some(Read(Lit(IntV(NatVal(d))), rest))
  {
    hide NumLength, NatVal;
    var t := d + rest;
    assert d[0] in d && t[0] == d[0];
    DigitsEnd(d[1..], rest);
    assert t[1..] == d[1..] + rest;
    assert t[..|d|] == d && t[|d|..] == rest;
  }

  // ---- values --------------------------------------------------------------

  /** The token a value is written as. */
  function TokOf(v: Val): Tok
    decreases v, 0
  {
    match v
    case StackV(items) => Stack(ToksOf(items))
    case PairV(a, b) => Group([TokOf(a), TokOf(b), Id(",")])
    case _ => Lit(v)
  }

  function ToksOf(items: seq<Val>): seq<Tok>
    decreases items, 0
  {
    if items == [] then [] else [TokOf(items[0])] + ToksOf(items[1..])
  }

  lemma SkipSpace(g: Lang, text: string, close: Tok)
    ensures ParseTok(g, " " + text) == ParseTok(g, text) && ParseBody(g, " " + text, close) == ParseBody(g, text, close)
  {
    assert (" " + text)[1..] == text;
  }

  /** One element of a body, and what follows. */
  lemma BodyStep(g: Lang, text: string, t: Tok, rest: string, close: Tok)
    requires ParseTok(g, text) == Some(Read(t, rest)) && t != close
    ensures ParseBody(g, text, close) ==
              var more := ParseBody(g, rest, close);
              if more.None? then None else Some(Read([t] + more.value.got, more.value.rest))
  {
    hide ParseTok;
  }

  lemma BodyEnd(g: Lang, text: string, close: Tok, rest: string)
    requires ParseTok(g, text) == Some(Read(close, rest))
    ensures ParseBody(g, text, close) == Some(Read([], rest))
  {
    hide ParseTok;
  }

  lemma ParsesNum(g: Lang, t: string)
    requires StartsNum(t)
    ensures ParseTok(g, t) == ParseNumTok(t)
  {
    hide ParseNumTok;
  }

  /** The first character decides what is read. */
  lemma ParsesAs(g: Lang, c: char, t: string)
    ensures c == '@' ==>
              (var r := ParseChar(t);
               ParseTok(g, [c] + t) == if r.None? then None else Some(Read(Lit(CharV(r.value.got)), r.value.rest)))
    ensures c == '\'' ==>
              (var r := ParseStr(t, 0 as char);
               ParseTok(g, [c] + t) == if r.None? then None else Some(Read(Lit(StrV(r.value.got)), r.value.rest)))
    ensures c == '[' ==>
              (var r := ParseBody(g, t, UnStack);
               ParseTok(g, [c] + t) == if r.None? then None else Some(Read(Stack(r.value.got), r.value.rest)))
    ensures c == '(' ==>
              (var r := ParseBody(g, t, UnGroup);
               ParseTok(g, [c] + t) == if r.None? then None else Some(Read(Group(r.value.got), r.value.rest)))
  {
    hide ParseChar, ParseStr, ParseBody, ParseNumTok;
    assert ([c] + t)[1..] == t;
  }

  lemma {:induction false} TokReadsBack(g: Lang, v: Val, rest: string)
    requires Readable(v) && Stops(rest)
    ensures Writable(v) && ParseTok(g, Write(v) + rest) == Some(Read(TokOf(v), rest))
    decreases v, 1
  {
    hide ParseTok, ParseBody, ParseStr, ParseChar, ParseNumTok, WriteInt, WriteChar, Encode, WriteItems;
    ReadableWritable(v);
    match v
    case IntV(i) =>
      IntReadsBack(i, rest);
      ParsesNum(g, WriteInt(i) + rest);
    case CharV(c) =>
      CharReadsBack(c, rest);
      ParsesAs(g, '@', WriteChar(c)[1..] + rest);
      assert ['@'] + (WriteChar(c)[1..] + rest) == WriteChar(c) + rest;
    case StrV(s) =>
      StrReadsBack(s, rest, 0 as char);
      ParsesAs(g, '\'', Encode(s) + "'" + rest);
      assert ['\''] + (Encode(s) + "'" + rest) == Write(v) + rest;
    case StackV(items) =>
      ItemsReadBack(g, items, rest);
      ParsesAs(g, '[', WriteItems(items) + "]" + rest);
      assert ['['] + (WriteItems(items) + "]" + rest) == Write(v) + rest;
    case PairV(a, b) => PairReads(g, v, rest);
  }

  lemma {:induction false} PairReads(g: Lang, v: Val, rest: string)
    requires v.PairV? && Readable(v) && Stops(rest)
    ensures Writable(v) && ParseTok(g, Write(v) + rest) == Some(Read(TokOf(v), rest))
    decreases v, 0, 1
  {
    hide ParseTok, ParseBody;
    PairReadsBack(g, v.a, v.b, rest);
    ParsesAs(g, '(', Write(v.a) + " " + Write(v.b) + ",)" + rest);
    assert ['('] + (Write(v.a) + " " + Write(v.b) + ",)" + rest) == Write(v) + rest;
  }

  lemma {:induction false} PairReadsBack(g: Lang, a: Val, b: Val, rest: string)
    requires Readable(a) && Readable(b)
    ensures Writable(a) && Writable(b)
    ensures ParseBody(g, Write(a) + " " + Write(b) + ",)" + rest, UnGroup)
         == Some(Read([TokOf(a), TokOf(b), Id(",")], rest))
    decreases PairV(a, b), 0, 0
  {
    hide Write, ParseTok, ParseBody, TokOf;
    ReadableWritable(a);
    ReadableWritable(b);
    var end := ",)" + rest;
    var second := Write(b) + end;
    TokReadsBack(g, a, " " + second);
    TokReadsBack(g, b, end);
    TokKinds(a);
    TokKinds(b);
    CommaEnds(g, rest);
    BodyStep(g, second, TokOf(b), end, UnGroup);
    SkipSpace(g, second, UnGroup);
    BodyStep(g, Write(a) + (" " + second), TokOf(a), " " + second, UnGroup);
    assert [TokOf(a)] + ([TokOf(b)] + [Id(",")]) == [TokOf(a), TokOf(b), Id(",")];
    assert Write(a) + (" " + second) == Write(a) + " " + Write(b) + ",)" + rest;
  }

  lemma TokKinds(v: Val)
    ensures !TokOf(v).UnGroup? && !TokOf(v).UnStack?
  {
  }

  lemma CommaEnds(g: Lang, rest: string)
    ensures ParseBody(g, ",)" + rest, UnGroup) == Some(Read([Id(",")], rest))
  {
    var t := ",)" + rest;
    assert t[1..] == ")" + rest && t[1..][1..] == rest;
    assert ParseTok(g, t[1..]) == Some(Read(UnGroup, rest));
    assert ParseTok(g, t) == Some(Read(Id(","), t[1..]));
    assert [Id(",")] + [] == [Id(",")];
    BodyEnd(g, t[1..], UnGroup, rest);
    BodyStep(g, t, Id(","), t[1..], UnGroup);
  }

  lemma CloseEnds(g: Lang, rest: string)
    ensures ParseBody(g, "]" + rest, UnStack) == Some(Read([], rest))
  {
    assert ("]" + rest)[1..] == rest;
    BodyEnd(g, "]" + rest, UnStack, rest);
  }

  lemma {:induction false} ItemsReadBack(g: Lang, items: seq<Val>, rest: string)
    requires forall x :: x in items ==> Readable(x)
    ensures (forall x :: x in items ==> Writable(x))
            && ParseBody(g, WriteItems(items) + "]" + rest, UnStack) == Some(Read(ToksOf(items), rest))
    decreases items, 0
  {
    hide Write, WriteItems, ParseTok, ParseBody, TokOf, Readable, Writable;
    forall x | x in items ensures Writable(x) { ReadableWritable(x); }
    CloseEnds(g, rest);
    if items == [] {
      ItemsText(items, rest);
    } else {
      TokKinds(items[0]);
      var more := if |items| == 1 then "]" + rest else " " + (WriteItems(items[1..]) + "]" + rest);
      ItemsText(items, rest);
      TokReadsBack(g, items[0], more);
      BodyStep(g, Write(items[0]) + more, TokOf(items[0]), more, UnStack);
      if |items| > 1 {
        ItemsReadBack(g, items[1..], rest);
        SkipSpace(g, WriteItems(items[1..]) + "]" + rest, UnStack);
      }
    }
  }

  /** The text of items, taken apart. */
  lemma ItemsText(items: seq<Val>, rest: string)
    requires forall x :: x in items ==> Writable(x)
    ensures WriteItems(items) + "]" + rest ==
              if items == [] then "]" + rest
              else Write(items[0]) + (if |items| == 1 then "]" + rest else " " + (WriteItems(items[1..]) + "]" + rest))
  {
    hide Write;
  }

  // ---- evaluation ----------------------------------------------------------

  lemma {:induction false} TokEvaluates(g: Lang, v: Val, stack: seq<Val>)
    ensures EvalTok(g, TokOf(v), stack) == Some(stack + [v])
    decreases v, 1
  {
    match v
    case StackV(items) =>
      ToksEvaluate(g, items, []);
      assert [] + items == items;
    case PairV(a, b) => PairEvaluates(g, a, b, stack);
    case _ =>
  }

  lemma {:induction false} PairEvaluates(g: Lang, a: Val, b: Val, stack: seq<Val>)
    ensures EvalTok(g, TokOf(PairV(a, b)), stack) == Some(stack + [PairV(a, b)])
    decreases PairV(a, b), 0
  {
    hide TokOf;
    TokEvaluates(g, a, []);
    TokEvaluates(g, b, [a]);
    var body := [TokOf(a), TokOf(b), Id(",")];
    assert body[1..] == [TokOf(b), Id(",")] && body[1..][1..] == [Id(",")] && body[1..][1..][1..] == [];
    assert [] + [a] == [a] && [a] + [b] == [a, b];
    assert [a, b][..0] + [PairV(a, b)] == [PairV(a, b)];
    assert EvalTok(g, Id(","), [a, b]) == Some([PairV(a, b)]);
    assert Eval(g, [Id(",")], [a, b]) == Some([PairV(a, b)]);
    assert Eval(g, body, []) == Some([PairV(a, b)]);
    PairTok(a, b);
  }

  lemma PairTok(a: Val, b: Val)
    ensures TokOf(PairV(a, b)) == Group([TokOf(a), TokOf(b), Id(",")])
  {
  }

  lemma EvalFirst(g: Lang, t: Tok, ts: seq<Tok>, stack: seq<Val>)
    ensures Eval(g, [t] + ts, stack) == var r := EvalTok(g, t, stack); if r.None? then None else Eval(g, ts, r.value)
  {
    hide EvalTok;
    assert ([t] + ts)[1..] == ts;
  }

  lemma {:induction false} ToksEvaluate(g: Lang, items: seq<Val>, stack: seq<Val>)
    ensures Eval(g, ToksOf(items), stack) == Some(stack + items)
    decreases items, 0
  {
    if items == [] {
      assert stack + items == stack;
    } else {
      hide TokOf, Eval, EvalTok;
      TokEvaluates(g, items[0], stack);
      ToksEvaluate(g, items[1..], stack + [items[0]]);
      EvalFirst(g, TokOf(items[0]), ToksOf(items[1..]), stack);
      assert stack + [items[0]] + items[1..] == stack + items;
    }
  }

  /** Whatever is built from 64-bit ints, chars and clean strings by stacks and pairs:
      its written text, at the end of the input or in front of a delimiter, is read as
      one token that evaluates to the value again, whatever else is in the language. */
  lemma RoundTrip(g: Lang, v: Val, rest: string, stack: seq<Val>)
    requires Readable(v) && Stops(rest)
    ensures Writable(v)
    ensures var r := ParseTok(g, Write(v) + rest);
            r.Some? && r.value.rest == rest && EvalTok(g, r.value.got, stack) == Some(stack + [v])
  {
    TokReadsBack(g, v, rest);
    TokEvaluates(g, v, stack);
  }

  // ---- forms ---------------------------------------------------------------

  predicate Blank(s: string) {
    forall c :: c in s ==> c == ' ' || c == '\t' || c == '\n'
  }

  /** Spaces, tabs and newlines in front of a token do not matter, inside a body either. */
  lemma {:induction false} BlanksSkipped(g: Lang, blanks: string, text: string, close: Tok)
    requires Blank(blanks)
    ensures ParseTok(g, blanks + text) == ParseTok(g, text)
    ensures ParseBody(g, blanks + text, close) == ParseBody(g, text, close)
    decreases |blanks|
  {
    if blanks == [] {
      assert blanks + text == text;
    } else {
      hide ParseChar, ParseStr, ParseNumTok, ParseOther;
      var t := blanks + text;
      assert blanks[0] in blanks && t[0] == blanks[0] && t[1..] == blanks[1..] + text;
      assert forall c :: c in blanks[1..] ==> c in blanks;
      BlanksSkipped(g, blanks[1..], text, close);
      assert ParseTok(g, t) == ParseTok(g, t[1..]);
    }
  }

  /** How chars are written, alone and in a string: named ones, visible ones as they are,
      and the rest by three digits that give their code. */
  lemma CharForms(c: char)
    requires IsByte(c)
    ensures WriteChar('\n') == "@@n" && WriteChar('\r') == "@@r" && WriteChar('\t') == "@@t" && WriteChar(' ') == "@@s"
    ensures EncodeChar('\n') == "@n" && EncodeChar('\r') == "@r" && EncodeChar('\t') == "@t"
    ensures EncodeChar(' ') == " " && EncodeChar('\'') == "@039"
    ensures '!' <= c <= '~' ==> WriteChar(c) == ['@', c] && (c != '\'' ==> EncodeChar(c) == [c])
    ensures !('!' <= c <= '~') && c !in " \n\r\t" ==>
              && WriteChar(c) == "@" + EncodeChar(c) && |EncodeChar(c)| == 4 && EncodeChar(c)[0] == '@'
              && var d := EncodeChar(c);
                 && (forall k :: 1 <= k < 4 ==> '0' <= d[k] <= '9')
                 && c as int == 100 * (d[1] as int - 48) + 10 * (d[2] as int - 48) + (d[3] as int - 48)
  {
    assert Digit(0) == '0' && Digit(3) == '3' && Digit(9) == '9';
  }

  /** The digits of a number end here. */
  predicate EndsNum(rest: string) {
    rest == [] || !('0' <= rest[0] <= '9' || rest[0] == '.' || rest[0] as int == 255)
  }

  lemma {:induction false} DigitsStop(s: string, rest: string)
    requires AllDigits(s) && EndsNum(rest)
    ensures NumLength(s + rest) == |s|
    decreases |s|
  {
    if s == [] {
      assert s + rest == rest;
    } else {
      assert (s + rest)[1..] == s[1..] + rest;
      DigitsStop(s[1..], rest);
    }
  }

  /** Digits, and digits behind a sign, are an int up to the first other character; one
      that needs more than 64 bits is an error, not another int. */
  lemma NumbersRead(g: Lang, d: string, rest: string)
    requires d != [] && AllDigits(d) && EndsNum(rest)
    ensures ParseTok(g, d + rest) ==
            if NatVal(d) <= 9_223_372_036_854_775_807 then Some(Read(Lit(IntV(NatVal(d))), rest)) else None
    ensures ParseTok(g, "-" + d + rest) ==
            if NatVal(d) <= 9_223_372_036_854_775_808 then Some(Read(Lit(IntV(0 - NatVal(d))), rest)) else None
  {
    hide NumLength, NatVal, ParseChar, ParseStr, ParseBody;
    var (t, u) := (d + rest, "-" + d + rest);
    assert d[0] in d && t[0] == d[0];
    DigitsStop(d[1..], rest);
    assert t[1..] == d[1..] + rest && t[..|d|] == d && t[|d|..] == rest;
    DigitsStop(d, rest);
    assert u[1..] == d + rest && u[1] == d[0];
    assert u[1..1 + |d|] == d && u[1 + |d|..] == rest && u[..1 + |d|] == "-" + d;
    assert '.' !in "-" + d && '.' !in d;
    ParsesNum(g, t);
    ParsesNum(g, u);
    hide ParseTok;
  }

  /** '@' and three digits, wherever they stand, are the char of that code, wrapped to a
      byte. */
  lemma CodesRead(a: nat, b: nat, c: nat, rest: string)
    requires a < 10 && b < 10 && c < 10
    ensures ParseChar("@" + [(48 + a) as char, (48 + b) as char, (48 + c) as char] + rest) ==
            Some(Read(((100 * a + 10 * b + c) % 256) as char, rest))
    ensures ParseChar("@n" + rest) == Some(Read('\n', rest)) && ParseChar("@r" + rest) == Some(Read('\r', rest))
    ensures ParseChar("@s" + rest) == Some(Read(' ', rest)) && ParseChar("@t" + rest) == Some(Read('\t', rest))
  {
    var d := [(48 + a) as char, (48 + b) as char, (48 + c) as char];
    var t := "@" + d + rest;
    assert t[1..] == d + rest && (d + rest)[3..] == rest;
    LetterRead('n', rest);
    LetterRead('r', rest);
    LetterRead('s', rest);
    LetterRead('t', rest);
    assert "@" + ['n'] == "@n" && "@" + ['r'] == "@r" && "@" + ['s'] == "@s" && "@" + ['t'] == "@t";
  }
}
