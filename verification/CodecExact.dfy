/** Exactly which values come back when their written text is read and evaluated.  A
    text that goes wrong inside a string shifts everything behind it; still no other
    tokens can make up for it. */
module CodecExact {
  import opened Basics
  import opened Codec
  import opened CodecValues

  // ---- strings -------------------------------------------------------------

  /** What is read for `s` and its closing quote, maybe beyond that. */
  function ReadFor(s: string, rest: string, pc: char): Option<Read<string>>
    requires Bytes(s)
  {
    ParseStr(Encode(s) + "'" + rest, pc)
  }

  lemma ThenLater(c: char, got: string, u: nat) returns (v: nat)
    requires u < |got|
    ensures v == u + 1 && v < |[c] + got| && ([c] + got)[v] == got[u]
  {
    v := u + 1;
  }

  /** A backslash is found no later than it was written. */
  lemma {:induction false} BackslashEarly(s: string, rest: string, pc: char, q: nat) returns (u: nat)
    requires Bytes(s) && ReadFor(s, rest, pc).Some? && q < |s| && s[q] == '\\'
    ensures u <= q && u < |ReadFor(s, rest, pc).value.got| && ReadFor(s, rest, pc).value.got[u] == '\\'
    decreases |s|
  {
    hide ParseStr, Encode, ReadFor;
    var n, c := FirstRead(s, rest, pc);
    if q == 0 {
      u := 0;
    } else {
      assert s[n..][q - n] == '\\';
      var v := BackslashEarly(s[n..], rest, c, q - n);
      u := ThenLater(c, ReadFor(s[n..], rest, c).value.got, v);
    }
  }

  /** The first character that is read stands for the first `n` of the string; only a
      single character can be a backslash. */
  lemma FirstRead(s: string, rest: string, pc: char) returns (n: nat, c: char)
    requires Bytes(s) && ReadFor(s, rest, pc).Some? && s != []
    ensures 1 <= n <= |s| && (forall i :: 0 <= i < n && s[i] == '\\' ==> n == 1 && c == '\\')
    ensures ReadFor(s[n..], rest, c).Some? && ReadFor(s, rest, pc).value.got == [c] + ReadFor(s[n..], rest, c).value.got
    ensures ReadFor(s, rest, pc).value.rest == ReadFor(s[n..], rest, c).value.rest
  {
    if s[0] == '@' && |s| > 1 && Special(s[1]) {
      n, c := Swallowed(s, rest, pc);
    } else {
      HeadRead(s, rest, pc);
      n, c := 1, s[0];
    }
    hide ParseStr, Encode;
  }

  /** Reading goes past the closing quote only behind a backslash. */
  lemma {:induction false} PastTheQuote(s: string, rest: string, pc: char)
    requires Bytes(s) && ReadFor(s, rest, pc).Some? && ReadFor(s, rest, pc).value.rest != rest
    ensures pc == '\\' || '\\' in ReadFor(s, rest, pc).value.got
    decreases |s|
  {
    if s == [] {
      assert Encode(s) + "'" + rest == "'" + rest && ("'" + rest)[1..] == rest;
    } else {
      hide ParseStr, Encode, ReadFor;
      var n, c := FirstRead(s, rest, pc);
      PastTheQuote(s[n..], rest, c);
      var more := ReadFor(s[n..], rest, c).value.got;
      assert [c] + more == ReadFor(s, rest, pc).value.got;
    }
  }

  lemma {:induction false} FirstBackslash(s: string) returns (q: nat)
    requires '\\' in s
    ensures q < |s| && s[q] == '\\' && forall i :: 0 <= i < q ==> s[i] != '\\'
  {
    if s[0] == '\\' {
      q := 0;
    } else {
      q := FirstBackslash(s[1..]);
      q := q + 1;
      assert forall i :: 0 < i < q ==> s[i] == s[1..][i - 1];
    }
  }

  lemma ShiftedBackslash(d: string, s: string, q: nat)
    requires d != [] && '\\' !in d && q < |s| && forall i :: 0 <= i < q ==> s[i] != '\\'
    ensures forall u :: 0 <= u <= q ==> (d + s)[u] != '\\'
  {
    forall u | 0 <= u <= q ensures (d + s)[u] != '\\' {
      if u < |d| { assert (d + s)[u] == d[u] && d[u] in d; } else { assert (d + s)[u] == s[u - |d|]; }
    }
  }

  /** Reading `s` never gives `s` with something else than backslashes in front. */
  lemma NeverLonger(d: string, s: string, rest: string, pc: char)
    requires Bytes(s) && d != [] && '\\' !in d && pc != '\\' && ReadFor(s, rest, pc).Some?
    ensures ReadFor(s, rest, pc).value.got != d + s
  {
    hide ParseStr, Encode;
    var r := ReadFor(s, rest, pc).value;
    if r.rest == rest {
      ReadsNoMore(s, rest, pc);
    } else if '\\' in s {
      var q := FirstBackslash(s);
      var u := BackslashEarly(s, rest, pc, q);
      ShiftedBackslash(d, s, q);
    } else {
      PastTheQuote(s, rest, pc);
    }
  }

  /** Two or four characters that became one do not come back. */
  lemma SwallowedDiffers(s: string, rest: string, n: nat, c: char)
    requires Bytes(s) && (n == 2 || n == 4) && n <= |s| && s[0] == '@' && (n == 2 ==> c != '@')
    requires (forall i :: 1 <= i < n ==> Special(s[i])) && ReadFor(s[n..], rest, c).Some?
    ensures [c] + ReadFor(s[n..], rest, c).value.got != s
  {
    hide ParseStr, Encode;
    var (d, got) := (s[1..n], ReadFor(s[n..], rest, c).value.got);
    assert s[1..] == d + s[n..] && ([c] + got)[1..] == got;
    assert forall i :: 0 <= i < n - 1 ==> Special(d[i]) by { assert forall i :: 0 <= i < n - 1 ==> d[i] == s[i + 1]; }
    if c == '@' { NeverLonger(d, s[n..], rest, c); }
  }

  /** What is read is the string only if the string is clean. */
  lemma {:induction false} OnlyClean(s: string, rest: string, pc: char)
    requires Bytes(s) && ReadFor(s, rest, pc).Some? && ReadFor(s, rest, pc).value.got == s
    ensures Clean(s) && (s == [] ==> pc != '\\')
    decreases |s|
  {
    if s == [] {
      assert Encode(s) + "'" + rest == "'" + rest;
    } else if s[0] == '@' && |s| > 1 && Special(s[1]) {
      var n, c := Swallowed(s, rest, pc);
      hide ParseStr, Encode;
      SwallowedDiffers(s, rest, n, c);
      assert false;
    } else {
      HeadRead(s, rest, pc);
      hide ParseStr, Encode;
      OnlyClean(s[1..], rest, s[0]);
      CleanTail(s);
    }
  }

  // ---- what tokens leave behind --------------------------------------------

  /** Values taken apart at their pairs, each half before its comma. */
  datatype Piece = Atom(v: Val) | Comma | Broken

  function Post(v: Val): seq<Piece> {
    if v.PairV? then Post(v.a) + Post(v.b) + [Comma] else [Atom(v)]
  }

  function PostAll(vs: seq<Val>): seq<Piece> {
    if vs == [] then [] else Post(vs[0]) + PostAll(vs[1..])
  }

  /** What evaluating a token adds. */
  function Flat(g: Lang, t: Tok): seq<Piece>
    decreases t, 0
  {
    match t
    case Lit(v) => Post(v)
    case Group(body) => FlatAll(g, body)
    case Stack(body) => if Eval(g, body, []).Some? then [Atom(StackV(Eval(g, body, []).value))] else [Broken]
    case Id(id) => if id == "," then [Comma] else [Broken]
    case _ => [Broken]
  }

  function FlatAll(g: Lang, ts: seq<Tok>): seq<Piece>
    decreases ts, 0
  {
    if ts == [] then [] else Flat(g, ts[0]) + FlatAll(g, ts[1..])
  }

  lemma {:induction false} PostConcat(x: seq<Val>, y: seq<Val>)
    ensures PostAll(x + y) == PostAll(x) + PostAll(y)
    decreases |x|
  {
    if x == [] {
      assert x + y == y;
    } else {
      assert (x + y)[1..] == x[1..] + y;
      PostConcat(x[1..], y);
    }
  }

  lemma PostAtom(v: Val)
    requires !v.PairV?
    ensures Post(v) == [Atom(v)]
  {
  }

  lemma PostOne(v: Val)
    ensures PostAll([v]) == Post(v)
  {
    assert [v][1..] == [];
  }

  /** Nothing but what values are written with. */
  predicate Pure(t: Tok)
    decreases t, 0
  {
    match t
    case Lit(_) => true
    case Group(body) => AllPure(body)
    case Stack(body) => AllPure(body)
    case Id(id) => id == ","
    case _ => false
  }

  predicate AllPure(ts: seq<Tok>)
    decreases ts, 0
  {
    ts != [] ==> Pure(ts[0]) && AllPure(ts[1..])
  }

  /** Such tokens only ever add at the end of what is on the stack, taken apart. */
  lemma {:induction false} EvalAdds(g: Lang, ts: seq<Tok>, stack: seq<Val>)
    requires Eval(g, ts, stack).Some? && AllPure(ts)
    ensures PostAll(Eval(g, ts, stack).value) == PostAll(stack) + FlatAll(g, ts)
    decreases ts, 0
  {
    hide EvalTok, Flat;
    if ts != [] {
      TokAdds(g, ts[0], stack);
      EvalAdds(g, ts[1..], EvalTok(g, ts[0], stack).value);
    }
  }

  lemma {:induction false} TokAdds(g: Lang, t: Tok, stack: seq<Val>)
    requires EvalTok(g, t, stack).Some? && Pure(t)
    ensures PostAll(EvalTok(g, t, stack).value) == PostAll(stack) + Flat(g, t)
    decreases t, 0
  {
    hide Post, Eval;
    match t
    case Lit(v) =>
      PostConcat(stack, [v]);
      PostOne(v);
    case Group(body) =>
      EvalAdds(g, body, []);
      PostConcat(stack, Eval(g, body, []).value);
    case Stack(body) =>
      var v := StackV(Eval(g, body, []).value);
      PostConcat(stack, [v]);
      PostOne(v);
      PostAtom(v);
    case Id(id) => PairAdds(stack);
  }

  lemma PairAdds(stack: seq<Val>)
    requires |stack| >= 2
    ensures var n := |stack| - 2;
            PostAll(stack[..n] + [PairV(stack[n], stack[n + 1])]) == PostAll(stack) + [Comma]
  {
    hide Post, PostAll;
    var n := |stack| - 2;
    var (x, y) := (stack[n], stack[n + 1]);
    PostConcat(stack[..n], [PairV(x, y)]);
    PostOne(PairV(x, y));
    PostPair(x, y);
    PostConcat(stack[..n], [x, y]);
    PostTwo(x, y);
    assert stack == stack[..n] + [x, y];
    Assoc(PostAll(stack[..n]), Post(x) + Post(y));
  }

  lemma Assoc(p: seq<Piece>, q: seq<Piece>)
    ensures p + (q + [Comma]) == p + q + [Comma]
  {
  }

  lemma PostPair(x: Val, y: Val)
    ensures Post(PairV(x, y)) == Post(x) + Post(y) + [Comma]
  {
  }

  lemma PostTwo(x: Val, y: Val)
    ensures PostAll([x, y]) == Post(x) + Post(y)
  {
    hide Post;
    PostConcat([x], [y]);
    PostOne(x);
    PostOne(y);
    assert [x] + [y] == [x, y];
  }

  // ---- whole values --------------------------------------------------------

  /** One begins with the other. */
  predicate Agree(x: seq<Piece>, y: seq<Piece>) {
    x <= y || y <= x
  }

  lemma AgreeFirst(x: seq<Piece>, y: seq<Piece>, p: seq<Piece>, q: seq<Piece>)
    requires Agree(x + y, p + q)
    ensures Agree(x, p)
    ensures x == p ==> Agree(y, q)
  {
    var n := if |x| <= |p| then |x| else |p|;
    assert forall i :: 0 <= i < n ==> x[i] == (x + y)[i] && p[i] == (p + q)[i];
    if x == p {
      assert (x + y)[|x|..] == y && (p + q)[|p|..] == q;
    }
  }

  lemma AgreeOne(x: Piece, y: Piece)
    requires Agree([x], [y])
    ensures x == y
  {
    assert [x][0] == [y][0];
  }

  lemma {:induction false} PureOf(v: Val)
    ensures Pure(TokOf(v))
    decreases v, 1
  {
    match v
    case StackV(items) => PureItems(items);
    case PairV(a, b) =>
      PureOf(a);
      PureOf(b);
      var body := [TokOf(a), TokOf(b), Id(",")];
      assert body[1..] == [TokOf(b), Id(",")] && body[1..][1..] == [Id(",")] && body[1..][1..][1..] == [];
      assert AllPure([Id(",")]) && AllPure([TokOf(b), Id(",")]);
    case _ =>
  }

  lemma {:induction false} PureItems(items: seq<Val>)
    ensures AllPure(ToksOf(items))
    decreases items, 0
  {
    if items != [] {
      PureOf(items[0]);
      PureItems(items[1..]);
      assert ToksOf(items)[1..] == ToksOf(items[1..]);
    }
  }

  /** A readable value's token leaves what the value is made of. */
  lemma FlatOf(g: Lang, v: Val)
    ensures Flat(g, TokOf(v)) == Post(v)
  {
    TokEvaluates(g, v, []);
    PureOf(v);
    TokAdds(g, TokOf(v), []);
    assert [] + [v] == [v];
    PostOne(v);
    hide Flat, Post, TokOf;
  }

  /** A body's first token, when it is not the closing one. */
  lemma FirstTok(g: Lang, text: string, close: Tok)
    requires ParseBody(g, text, close).Some?
    ensures ParseTok(g, text).Some?
    ensures var t := ParseTok(g, text).value;
            t.got != close ==>
              && ParseBody(g, t.rest, close).Some?
              && ParseBody(g, text, close).value.got == [t.got] + ParseBody(g, t.rest, close).value.got
              && (AllPure(ParseBody(g, text, close).value.got) ==>
                    Pure(t.got) && AllPure(ParseBody(g, t.rest, close).value.got))
              && FlatAll(g, ParseBody(g, text, close).value.got)
                  == Flat(g, t.got) + FlatAll(g, ParseBody(g, t.rest, close).value.got)
  {
    hide ParseTok, Flat;
    var t := ParseTok(g, text).value;
    if t.got != close {
      var more := ParseBody(g, t.rest, close).value.got;
      assert ([t.got] + more)[1..] == more;
    }
  }

  /** The token of a value never closes anything, whatever is read for it. */
  lemma NoClose(g: Lang, v: Val, rest: string)
    requires Writable(v) && ParseTok(g, Write(v) + rest).Some?
    ensures !ParseTok(g, Write(v) + rest).value.got.UnGroup? && !ParseTok(g, Write(v) + rest).value.got.UnStack?
  {
    hide ParseBody, ParseStr, ParseChar, ParseNum, Encode, WriteItems;
    var t := Write(v) + rest;
    WriteHead(v);
    assert t[0] == Write(v)[0] && (|Write(v)| > 1 ==> t[1] == Write(v)[1]);
  }

  lemma WriteHead(v: Val)
    requires Writable(v)
    ensures var s := Write(v);
            s != [] && (IsDigit(s[0]) || s[0] in "@'[(" || (s[0] == '-' && |s| > 1 && IsDigit(s[1])))
  {
    hide Encode, WriteItems;
    match v
    case IntV(i) =>
      NatReadsBack(if i < 0 then -i else i);
      assert WriteNat(if i < 0 then -i else i)[0] in WriteNat(if i < 0 then -i else i);
    case _ =>
  }

  /** If the token read for `v` leaves what `v` is made of, or a beginning of that, or
      more, then `v` is readable. */
  lemma {:induction false} OnlyReadable(g: Lang, v: Val, rest: string)
    requires Writable(v) && ParseTok(g, Write(v) + rest).Some?
    requires Pure(ParseTok(g, Write(v) + rest).value.got)
    requires Agree(Flat(g, ParseTok(g, Write(v) + rest).value.got), Post(v))
    ensures Readable(v)
    decreases v, 2
  {
    hide ParseTok, Write, Flat, Agree, Post;
    match v
    case StrV(s) => OnlyString(g, s, rest);
    case StackV(items) => OnlyStack(g, items, rest);
    case PairV(a, b) => OnlyPair(g, a, b, rest);
    case _ =>
  }

  lemma OnlyString(g: Lang, s: string, rest: string)
    requires Bytes(s) && ParseTok(g, Write(StrV(s)) + rest).Some?
    requires Agree(Flat(g, ParseTok(g, Write(StrV(s)) + rest).value.got), Post(StrV(s)))
    ensures Clean(s)
  {
    hide ParseTok, ParseStr, Encode;
    ParsesAs(g, '\'', Encode(s) + "'" + rest);
    assert ['\''] + (Encode(s) + "'" + rest) == Write(StrV(s)) + rest;
    AgreeOne(Flat(g, ParseTok(g, Write(StrV(s)) + rest).value.got)[0], Atom(StrV(s)));
    OnlyClean(s, rest, 0 as char);
  }

  lemma {:induction false} OnlyStack(g: Lang, items: seq<Val>, rest: string)
    requires Writable(StackV(items)) && ParseTok(g, Write(StackV(items)) + rest).Some?
    requires Pure(ParseTok(g, Write(StackV(items)) + rest).value.got)
    requires Agree(Flat(g, ParseTok(g, Write(StackV(items)) + rest).value.got), Post(StackV(items)))
    ensures forall x :: x in items ==> Readable(x)
    decreases StackV(items), 1
  {
    hide ParseTok, ParseBody, WriteItems, FlatAll, Eval, Write;
    var v := StackV(items);
    ParsesAs(g, '[', WriteItems(items) + "]" + rest);
    StackText(items, rest);
    AgreeOne(Flat(g, ParseTok(g, Write(v) + rest).value.got)[0], Atom(v));
    StackItems(g, items, rest);
  }

  lemma StackText(items: seq<Val>, rest: string)
    requires Writable(StackV(items))
    ensures Write(StackV(items)) + rest == ['['] + (WriteItems(items) + "]" + rest)
  {
    hide WriteItems;
  }

  lemma {:induction false} OnlyPair(g: Lang, a: Val, b: Val, rest: string)
    requires Writable(PairV(a, b)) && ParseTok(g, Write(PairV(a, b)) + rest).Some?
    requires Pure(ParseTok(g, Write(PairV(a, b)) + rest).value.got)
    requires Agree(Flat(g, ParseTok(g, Write(PairV(a, b)) + rest).value.got), Post(PairV(a, b)))
    ensures Readable(a) && Readable(b)
    decreases PairV(a, b), 1
  {
    hide ParseTok, ParseBody, FlatAll, Write;
    ParsesAs(g, '(', Write(a) + " " + Write(b) + ",)" + rest);
    PairText(a, b, rest);
    OnlyHalves(g, a, b, rest);
  }

  lemma PairText(a: Val, b: Val, rest: string)
    requires Writable(a) && Writable(b)
    ensures Write(PairV(a, b)) + rest == ['('] + (Write(a) + " " + Write(b) + ",)" + rest)
  {
    var (x, y) := (Write(a), Write(b));
    assert Write(PairV(a, b)) == "(" + x + " " + y + ",)";
    hide Write;
  }

  lemma {:induction false} StackItems(g: Lang, items: seq<Val>, rest: string)
    requires forall x :: x in items ==> Writable(x)
    requires ParseBody(g, WriteItems(items) + "]" + rest, UnStack).Some?
    requires AllPure(ParseBody(g, WriteItems(items) + "]" + rest, UnStack).value.got)
    requires Eval(g, ParseBody(g, WriteItems(items) + "]" + rest, UnStack).value.got, []) == Some(items)
    ensures forall x :: x in items ==> Readable(x)
    decreases items, 1
  {
    hide ParseTok, ParseBody, WriteItems, Eval, Flat;
    var body := ParseBody(g, WriteItems(items) + "]" + rest, UnStack).value.got;
    EvalAdds(g, body, []);
    OnlyItems(g, items, rest);
  }

  lemma {:induction false} OnlyItems(g: Lang, items: seq<Val>, rest: string)
    requires forall x :: x in items ==> Writable(x)
    requires ParseBody(g, WriteItems(items) + "]" + rest, UnStack).Some?
    requires AllPure(ParseBody(g, WriteItems(items) + "]" + rest, UnStack).value.got)
    requires Agree(FlatAll(g, ParseBody(g, WriteItems(items) + "]" + rest, UnStack).value.got), PostAll(items))
    ensures forall x :: x in items ==> Readable(x)
    decreases items, 0
  {
    hide Write, WriteItems, ParseTok, ParseBody, TokOf, Readable, Writable, Flat, FlatAll, Post, Agree;
    if items != [] {
      var more := if |items| == 1 then "]" + rest else " " + (WriteItems(items[1..]) + "]" + rest);
      var text := Write(items[0]) + more;
      ItemsText(items, rest);
      FirstTok(g, text, UnStack);
      NoClose(g, items[0], more);
      var t := ParseTok(g, text).value;
      AgreeFirst(Flat(g, t.got), FlatAll(g, ParseBody(g, t.rest, UnStack).value.got), Post(items[0]),
                 PostAll(items[1..]));
      OnlyReadable(g, items[0], more);
      TokReadsBack(g, items[0], more);
      FlatOf(g, items[0]);
      if |items| > 1 {
        SkipSpace(g, WriteItems(items[1..]) + "]" + rest, UnStack);
        OnlyItems(g, items[1..], rest);
      }
      assert items == [items[0]] + items[1..];
    }
  }

  lemma {:induction false} OnlyHalves(g: Lang, a: Val, b: Val, rest: string)
    requires Writable(a) && Writable(b)
    requires ParseBody(g, Write(a) + " " + Write(b) + ",)" + rest, UnGroup).Some?
    requires AllPure(ParseBody(g, Write(a) + " " + Write(b) + ",)" + rest, UnGroup).value.got)
    requires Agree(FlatAll(g, ParseBody(g, Write(a) + " " + Write(b) + ",)" + rest, UnGroup).value.got),
               Post(a) + Post(b) + [Comma])
    ensures Readable(a) && Readable(b)
    decreases PairV(a, b), 0
  {
    hide Write, ParseTok, ParseBody, TokOf, Readable, Writable, Flat, FlatAll, Post, Agree;
    var end := ",)" + rest;
    var second := Write(b) + end;
    var text := Write(a) + (" " + second);
    assert text == Write(a) + " " + Write(b) + ",)" + rest;
    FirstTok(g, text, UnGroup);
    NoClose(g, a, " " + second);
    var t := ParseTok(g, text).value;
    assert Post(a) + Post(b) + [Comma] == Post(a) + (Post(b) + [Comma]);
    AgreeFirst(Flat(g, t.got), FlatAll(g, ParseBody(g, t.rest, UnGroup).value.got), Post(a), Post(b) + [Comma]);
    OnlyReadable(g, a, " " + second);
    TokReadsBack(g, a, " " + second);
    FlatOf(g, a);
    SkipSpace(g, second, UnGroup);
    FirstTok(g, second, UnGroup);
    NoClose(g, b, end);
    var u := ParseTok(g, second).value;
    AgreeFirst(Flat(g, u.got), FlatAll(g, ParseBody(g, u.rest, UnGroup).value.got), Post(b), [Comma]);
    OnlyReadable(g, b, end);
  }

  /** A written value, at the end of the input or in front of a delimiter, is read as
      the token that belongs to it, and no further, exactly if all its strings are
      clean: whatever else is in the language. */
  lemma ReadsAsItsToken(g: Lang, v: Val, rest: string)
    requires Writable(v) && Stops(rest)
    ensures ParseTok(g, Write(v) + rest) == Some(Read(TokOf(v), rest)) <==> Readable(v)
  {
    hide ParseTok, Write, Flat, Post, Pure;
    if Readable(v) {
      TokReadsBack(g, v, rest);
    } else if ParseTok(g, Write(v) + rest) == Some(Read(TokOf(v), rest)) {
      PureOf(v);
      FlatOf(g, v);
      OnlyReadable(g, v, rest);
    }
  }

  /** It evaluates to the value, by nothing but tokens that values are written with,
      exactly if all its strings are clean. */
  lemma RoundTripIff(g: Lang, v: Val, rest: string, stack: seq<Val>)
    requires Writable(v) && Stops(rest)
    ensures var r := ParseTok(g, Write(v) + rest);
            && (Readable(v) <==>
                  r.Some? && Pure(r.value.got) && EvalTok(g, r.value.got, stack) == Some(stack + [v]))
            && (Readable(v) ==> r.value.rest == rest)
  {
    hide ParseTok, Write, EvalTok, Flat, Post, Pure;
    var r := ParseTok(g, Write(v) + rest);
    if Readable(v) {
      RoundTrip(g, v, rest, stack);
      TokReadsBack(g, v, rest);
      PureOf(v);
    } else if r.Some? && Pure(r.value.got) && EvalTok(g, r.value.got, stack) == Some(stack + [v]) {
      TokAdds(g, r.value.got, stack);
      PostConcat(stack, [v]);
      PostOne(v);
      assert (PostAll(stack) + Flat(g, r.value.got))[|PostAll(stack)|..] == Flat(g, r.value.got);
      assert (PostAll(stack) + Post(v))[|PostAll(stack)|..] == Post(v);
      OnlyReadable(g, v, rest);
    }
  }

  // ---- how another token can make up for a bad string ----------------------

  /** A stack of the strings `\` and ` f`. */
  function Tricky(): Val {
    StackV([StrV("\\"), StrV(" f")])
  }

  lemma TrickyText()
    ensures Writable(Tricky()) && !Readable(Tricky()) && Write(Tricky()) == "['\\' ' f']"
  {
    var (s, u) := ("\\", " f");
    var items := [StrV(s), StrV(u)];
    assert items[1..] == [StrV(u)];
    assert s[1..] == "" && Encode(s) == "\\";
    assert u[1..] == "f" && u[1..][1..] == "" && Encode("f") == "f" && Encode(u) == " f";
    assert WriteItems([StrV(u)]) == "' f'";
    assert StrV(s) in items && !Clean(s);
  }

  /** In a language with a function named `f'` that replaces what it is given by these two
      strings, the text comes to the value although the first string is not clean: it
      is read as the string `\' ` and that function. */
  lemma OtherTokensMayHelp(g: Lang, rest: string, stack: seq<Val>)
    requires Stops(rest) && g.read("f']" + rest) == Some((Id("f'"), 2))
    requires g.run(Id("f'"), [StrV("\\' ")]) == Some([StrV("\\"), StrV(" f")])
    ensures Writable(Tricky()) && !Readable(Tricky())
    ensures var r := ParseTok(g, Write(Tricky()) + rest);
            && r == Some(Read(Stack([Lit(StrV("\\' ")), Id("f'")]), rest))
            && EvalTok(g, r.value.got, stack) == Some(stack + [Tricky()])
  {
    hide ParseTok, ParseBody, ParseStr, Write, Writable, Readable, EvalTok;
    TrickyText();
    var close := "]" + rest;
    var (third, second) := ("f']" + rest, " f']" + rest);
    var first := "\\' '" + second;
    TrickyString(second);
    ParsesAs(g, '\'', first);
    ReadsOther(g, third, "f'", close);
    CloseEnds(g, rest);
    BodyStep(g, third, Id("f'"), close, UnStack);
    SkipSpace(g, third, UnStack);
    assert second == " " + third;
    BodyStep(g, ['\''] + first, Lit(StrV("\\' ")), second, UnStack);
    ParsesAs(g, '[', ['\''] + first);
    assert Write(Tricky()) + rest == ['['] + (['\''] + first);
    assert [Lit(StrV("\\' "))] + ([Id("f'")] + []) == [Lit(StrV("\\' ")), Id("f'")];
    TrickyEvaluates(g, stack);
  }

  lemma TrickyString(rest: string)
    ensures ParseStr("\\' '" + rest, 0 as char) == Some(Read("\\' ", rest))
  {
    var t := "\\' '" + rest;
    assert t[1..] == "' '" + rest && t[1..][1..] == " '" + rest && t[1..][1..][1..] == "'" + rest;
    assert t[1..][1..][1..][1..] == rest;
    assert ParseStr("'" + rest, ' ') == Some(Read([], rest));
    assert ParseStr(" '" + rest, '\'') == Some(Read([' '] + [], rest));
    assert ParseStr("' '" + rest, '\\') == Some(Read(['\''] + ([' '] + []), rest));
    assert ['\\'] + (['\''] + ([' '] + [])) == "\\' ";
  }

  /** An identifier of two characters, the first of which begins no value. */
  lemma ReadsOther(g: Lang, text: string, id: string, rest: string)
    requires text == "f'" + rest && g.read(text) == Some((Id(id), 2))
    ensures ParseTok(g, text) == Some(Read(Id(id), rest))
  {
    assert text[2..] == rest;
    assert ParseOther(g, text) == Some(Read(Id(id), rest));
    hide ParseOther, ParseBody, ParseStr, ParseChar, ParseNumTok;
  }

  lemma TrickyEvaluates(g: Lang, stack: seq<Val>)
    requires g.run(Id("f'"), [StrV("\\' ")]) == Some([StrV("\\"), StrV(" f")])
    ensures EvalTok(g, Stack([Lit(StrV("\\' ")), Id("f'")]), stack) == Some(stack + [Tricky()])
  {
    var body := [Lit(StrV("\\' ")), Id("f'")];
    assert body[1..] == [Id("f'")] && body[1..][1..] == [];
    assert [] + [StrV("\\' ")] == [StrV("\\' ")];
    assert EvalTok(g, Id("f'"), [StrV("\\' ")]) == Some([StrV("\\"), StrV(" f")]);
    assert Eval(g, [Id("f'")], [StrV("\\' ")]) == Some([StrV("\\"), StrV(" f")]);
  }
}
