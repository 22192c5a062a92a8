/** The shell-like tokenizer behind every configured command line. */
module SplitCommand {
  import opened Common
  import opened Text

  /** A character of the command line, or a placeholder that will be filled in later.  The
      daemon only ever splits characters; placeholders let the same scanner run on templates. */
  datatype Sym = Ch(c: char) | Hole(id: nat)

  /** The tokenizer's variables. */
  datatype Scanner = Scanner(
    tokens: seq<seq<Sym>>,
    current: seq<Sym>,
    inSingle: bool,
    inDouble: bool,
    escape: bool)

  function Advance(s: Scanner, x: Sym): Scanner {
    if s.escape then s.(current := s.current + [x], escape := false)
    else if x == Ch('\\') && !s.inSingle then s.(escape := true)
    else if x == Ch('\'') && !s.inDouble then s.(inSingle := !s.inSingle)
    else if x == Ch('\"') && !s.inSingle then s.(inDouble := !s.inDouble)
    else if x.Ch? && IsWhitespace(x.c) && !s.inSingle && !s.inDouble then
      if s.current == [] then s else s.(tokens := s.tokens + [s.current], current := [])
    else s.(current := s.current + [x])
  }

  function Scan(s: Scanner, xs: seq<Sym>): Scanner {
    if xs == [] then s else Advance(Scan(s, xs[..|xs| - 1]), xs[|xs| - 1])
  }

  const START := Scanner([], [], false, false, false)

  function Closed(s: Scanner): seq<seq<Sym>> {
    if s.current == [] then s.tokens else s.tokens + [s.current]
  }

  function Tokens(xs: seq<Sym>): seq<seq<Sym>> {
    Closed(Scan(START, xs))
  }

  function Syms(s: string): (xs: seq<Sym>)
    ensures |xs| == |s| && forall i :: 0 <= i < |s| ==> xs[i] == Ch(s[i])
  {
    seq(|s|, i requires 0 <= i < |s| => Ch(s[i]))
  }

  function AllSyms(tokens: seq<string>): (r: seq<seq<Sym>>)
    ensures |r| == |tokens| && forall k :: 0 <= k < |tokens| ==> r[k] == Syms(tokens[k])
  {
    seq(|tokens|, k requires 0 <= k < |tokens| => Syms(tokens[k]))
  }

  lemma SymsConcat(a: string, b: string)
    ensures Syms(a + b) == Syms(a) + Syms(b)
  {
  }

  /** Back to text; a placeholder shows as a question mark. */
  function Chars(xs: seq<Sym>): (s: string)
    ensures |s| == |xs| && forall i :: 0 <= i < |xs| && xs[i].Ch? ==> s[i] == xs[i].c
  {
    seq(|xs|, i requires 0 <= i < |xs| => if xs[i].Ch? then xs[i].c else '?')
  }

  function AllChars(tokens: seq<seq<Sym>>): (r: seq<string>)
    ensures |r| == |tokens| && forall k :: 0 <= k < |tokens| ==> r[k] == Chars(tokens[k])
  {
    seq(|tokens|, k requires 0 <= k < |tokens| => Chars(tokens[k]))
  }

  lemma CharsOfSyms(tokens: seq<string>)
    ensures AllChars(AllSyms(tokens)) == tokens
  {
    forall k | 0 <= k < |tokens| ensures AllChars(AllSyms(tokens))[k] == tokens[k] {
      assert Chars(Syms(tokens[k])) == tokens[k];
    }
  }

  /** The tokens of a command line. */
  function SplitTokens(cmd: string): seq<string> {
    AllChars(Tokens(Syms(cmd)))
  }

  datatype Command = Command(program: string, args: seq<string>)

  /** No command without a token; otherwise the first token is the program. */
  function AsCommand(tokens: seq<string>): (r: Option<Command>)
    ensures r.None? <==> tokens == []
    ensures r.Some? ==> [r.value.program] + r.value.args == tokens
  {
    if tokens == [] then None else Some(Command(tokens[0], tokens[1..]))
  }

  lemma {:induction false} ScanConcat(s: Scanner, xs: seq<Sym>, ys: seq<Sym>)
    ensures Scan(s, xs + ys) == Scan(Scan(s, xs), ys)
  {
    if ys == [] {
      assert xs + ys == xs;
    } else {
      var init := ys[..|ys| - 1];
      assert (xs + ys)[..|xs + ys| - 1] == xs + init;
      ScanConcat(s, xs, init);
    }
  }

  lemma ScanOne(s: Scanner, x: Sym)
    ensures Scan(s, [x]) == Advance(s, x)
  {
    assert [x][..0] == [];
  }

  /** The loop of the source, character by character. */
  method Split(cmd: string) returns (r: Option<Command>)
    ensures r == AsCommand(SplitTokens(cmd))
  {
    hide IsWhitespace, Scan;
    var tokens: seq<string> := [];
    var current: string := [];
    var inSingle, inDouble, escape := false, false, false;
    var k := 0;
    ScanStart(cmd);
    while k < |cmd|
      invariant 0 <= k <= |cmd|
      invariant Scanner(AllSyms(tokens), Syms(current), inSingle, inDouble, escape) == Scan(START, Syms(cmd)[..k])
    {
      var ch := cmd[k];
      ScanNext(cmd, k);
      if escape {
        PushChar(current, ch);
        current := current + [ch];
        escape := false;
      } else if ch == '\\' && !inSingle {
        escape := true;
      } else if ch == '\'' && !inDouble {
        inSingle := !inSingle;
      } else if ch == '\"' && !inSingle {
        inDouble := !inDouble;
      } else if IsWhitespace(ch) && !inSingle && !inDouble {
        if current != [] {
          PushToken(tokens, current);
          tokens := tokens + [current];
          current := [];
        }
      } else {
        PushChar(current, ch);
        current := current + [ch];
      }
      k := k + 1;
    }
    assert Syms(cmd)[..k] == Syms(cmd);
    if current != [] {
      PushToken(tokens, current);
      tokens := tokens + [current];
    }
    CharsOfSyms(tokens);
    if tokens == [] { return None; }
    r := Some(Command(tokens[0], tokens[1..]));
  }

  lemma ScanStart(cmd: string)
    ensures Syms(cmd)[..0] == [] == Syms([]) && AllSyms([]) == [] && Scan(START, []) == START
  {
  }

  /** One round of the loop is one step of the scanner. */
  lemma ScanNext(cmd: string, k: nat)
    requires k < |cmd|
    ensures Scan(START, Syms(cmd)[..k + 1]) == Advance(Scan(START, Syms(cmd)[..k]), Ch(cmd[k]))
  {
    hide Advance;
    assert Syms(cmd)[..k + 1][..k] == Syms(cmd)[..k];
  }

  lemma PushChar(current: string, c: char)
    ensures Syms(current + [c]) == Syms(current) + [Ch(c)]
  {
  }

  lemma PushToken(tokens: seq<string>, t: string)
    ensures AllSyms(tokens + [t]) == AllSyms(tokens) + [Syms(t)]
    ensures Syms([]) == [] && (t != [] ==> Syms(t) != [])
  {
    assert |Syms(t)| == |t|;
  }

  // ----- no empty tokens --------------------------------------------------------------------

  predicate NoneEmpty<T>(tokens: seq<seq<T>>) {
    forall k :: 0 <= k < |tokens| ==> tokens[k] != []
  }

  lemma {:induction false} ScanNoneEmpty(s: Scanner, xs: seq<Sym>)
    requires NoneEmpty(s.tokens)
    ensures NoneEmpty(Scan(s, xs).tokens)
  {
    if xs != [] { ScanNoneEmpty(s, xs[..|xs| - 1]); }
  }

  lemma TokensNoneEmpty(xs: seq<Sym>)
    ensures NoneEmpty(Tokens(xs))
  {
    ScanNoneEmpty(START, xs);
  }

  /** Neither program nor arguments are ever empty. */
  lemma SplitNoneEmpty(cmd: string)
    ensures NoneEmpty(SplitTokens(cmd))
  {
    TokensNoneEmpty(Syms(cmd));
    var tokens := Tokens(Syms(cmd));
    forall k | 0 <= k < |tokens| ensures SplitTokens(cmd)[k] != [] {
      assert |Chars(tokens[k])| == |tokens[k]|;
    }
  }

  // ----- the language of command lines ------------------------------------------------------

  /** Plain outside of quotes. */
  predicate Plain(c: char) {
    !IsWhitespace(c) && c != '\\' && c != '\'' && c != '\"'
  }

  predicate PlainSym(x: Sym) {
    x.Hole? || Plain(x.c)
  }

  /** A stretch of a word, written in one of the four ways there are. */
  datatype Piece =
    | Bare(x: Sym)
    | Escaped(x: Sym)
    | SingleQuoted(body: seq<Sym>)
    | DoubleQuoted(chars: seq<Quoted>)

  datatype Quoted = AsIs(x: Sym) | Backslashed(x: Sym)

  predicate QuotedOk(q: Quoted) {
    q.AsIs? ==> q.x != Ch('\\') && q.x != Ch('\"')
  }

  predicate PieceOk(p: Piece) {
    match p
    case Bare(x) => PlainSym(x)
    case Escaped(_) => true
    case SingleQuoted(body) => forall i :: 0 <= i < |body| ==> body[i] != Ch('\'')
    case DoubleQuoted(chars) => forall i :: 0 <= i < |chars| ==> QuotedOk(chars[i])
  }

  function WriteQuoted(q: Quoted): seq<Sym> {
    match q
    case AsIs(x) => [x]
    case Backslashed(x) => [Ch('\\'), x]
  }

  function WriteChars(qs: seq<Quoted>): seq<Sym> {
    if qs == [] then [] else WriteChars(qs[..|qs| - 1]) + WriteQuoted(qs[|qs| - 1])
  }

  function ReadChars(qs: seq<Quoted>): seq<Sym> {
    if qs == [] then [] else ReadChars(qs[..|qs| - 1]) + [qs[|qs| - 1].x]
  }

  function Write(p: Piece): seq<Sym> {
    match p
    case Bare(x) => [x]
    case Escaped(x) => [Ch('\\'), x]
    case SingleQuoted(body) => [Ch('\'')] + body + [Ch('\'')]
    case DoubleQuoted(chars) => [Ch('\"')] + WriteChars(chars) + [Ch('\"')]
  }

  /** What a piece stands for. */
  function Read(p: Piece): seq<Sym> {
    match p
    case Bare(x) => [x]
    case Escaped(x) => [x]
    case SingleQuoted(body) => body
    case DoubleQuoted(chars) => ReadChars(chars)
  }

  function WriteWord(ps: seq<Piece>): seq<Sym> {
    if ps == [] then [] else WriteWord(ps[..|ps| - 1]) + Write(ps[|ps| - 1])
  }

  function ReadWord(ps: seq<Piece>): seq<Sym> {
    if ps == [] then [] else ReadWord(ps[..|ps| - 1]) + Read(ps[|ps| - 1])
  }

  /** A word and the white space written after it. */
  datatype Item = Item(word: seq<Piece>, gap: seq<Sym>)

  predicate ItemOk(it: Item, last: bool) {
    && (forall p :: p in it.word ==> PieceOk(p))
    && (forall i :: 0 <= i < |it.gap| ==> it.gap[i].Ch? && IsWhitespace(it.gap[i].c))
    && (last || it.gap != [])
  }

  predicate LineOk(items: seq<Item>) {
    forall k :: 0 <= k < |items| ==> ItemOk(items[k], k == |items| - 1)
  }

  function WriteLine(items: seq<Item>): seq<Sym> {
    if items == [] then []
    else WriteLine(items[..|items| - 1]) + WriteWord(items[|items| - 1].word) + items[|items| - 1].gap
  }

  /** The words of a line, without those that stand for nothing. */
  function ReadLine(items: seq<Item>): seq<seq<Sym>> {
    if items == [] then []
    else
      var word := ReadWord(items[|items| - 1].word);
      ReadLine(items[..|items| - 1]) + (if word == [] then [] else [word])
  }

  /** Outside of quotes, with `current` begun. */
  function Outside(tokens: seq<seq<Sym>>, current: seq<Sym>): Scanner {
    Scanner(tokens, current, false, false, false)
  }

  lemma {:induction false} ScanSingle(tokens: seq<seq<Sym>>, current: seq<Sym>, body: seq<Sym>)
    requires forall i :: 0 <= i < |body| ==> body[i] != Ch('\'')
    ensures Scan(Scanner(tokens, current, true, false, false), body) == Scanner(tokens, current + body, true, false, false)
  {
    hide IsWhitespace;
    if body == [] {
      assert current + body == current;
    } else {
      var init, x := body[..|body| - 1], body[|body| - 1];
      ScanSingle(tokens, current, init);
      assert current + body == (current + init) + [x];
    }
  }

  lemma {:induction false} ScanDouble(tokens: seq<seq<Sym>>, current: seq<Sym>, qs: seq<Quoted>)
    requires forall i :: 0 <= i < |qs| ==> QuotedOk(qs[i])
    ensures Scan(Scanner(tokens, current, false, true, false), WriteChars(qs))
         == Scanner(tokens, current + ReadChars(qs), false, true, false)
  {
    if qs == [] {
      assert current + [] == current;
    } else {
      var init, q := qs[..|qs| - 1], qs[|qs| - 1];
      ScanDouble(tokens, current, init);
      var s := Scanner(tokens, current + ReadChars(init), false, true, false);
      ScanConcat(Scanner(tokens, current, false, true, false), WriteChars(init), WriteQuoted(q));
      ScanQuoted(tokens, current + ReadChars(init), q);
      assert current + ReadChars(qs) == (current + ReadChars(init)) + [q.x];
    }
  }

  lemma ScanQuoted(tokens: seq<seq<Sym>>, current: seq<Sym>, q: Quoted)
    requires QuotedOk(q)
    ensures Scan(Scanner(tokens, current, false, true, false), WriteQuoted(q))
         == Scanner(tokens, current + [q.x], false, true, false)
  {
    hide IsWhitespace;
    var s := Scanner(tokens, current, false, true, false);
    match q
    case AsIs(x) => ScanOne(s, x);
    case Backslashed(x) =>
      assert [Ch('\\'), x] == [Ch('\\')] + [x];
      ScanConcat(s, [Ch('\\')], [x]);
      ScanOne(s, Ch('\\'));
      ScanOne(s.(escape := true), x);
  }

  /** However a piece is written, the scanner reads what it stands for. */
  lemma ScanPiece(tokens: seq<seq<Sym>>, current: seq<Sym>, p: Piece)
    requires PieceOk(p)
    ensures Scan(Outside(tokens, current), Write(p)) == Outside(tokens, current + Read(p))
  {
    var s := Outside(tokens, current);
    match p
    case Bare(x) => ScanOne(s, x);
    case Escaped(x) =>
      assert Write(p) == [Ch('\\')] + [x];
      ScanConcat(s, [Ch('\\')], [x]);
      ScanOne(s, Ch('\\'));
      ScanOne(s.(escape := true), x);
    case SingleQuoted(body) =>
      ScanBetween(s, Ch('\''), body);
      ScanOne(s, Ch('\''));
      ScanSingle(tokens, current, body);
      ScanOne(Scanner(tokens, current + body, true, false, false), Ch('\''));
    case DoubleQuoted(chars) =>
      ScanBetween(s, Ch('\"'), WriteChars(chars));
      ScanOne(s, Ch('\"'));
      ScanDouble(tokens, current, chars);
      ScanOne(Scanner(tokens, current + ReadChars(chars), false, true, false), Ch('\"'));
  }

  lemma ScanBetween(s: Scanner, q: Sym, body: seq<Sym>)
    ensures Scan(s, [q] + body + [q]) == Scan(Scan(Scan(s, [q]), body), [q])
  {
    ScanConcat(s, [q] + body, [q]);
    ScanConcat(s, [q], body);
  }

  lemma {:induction false} ScanWord(tokens: seq<seq<Sym>>, current: seq<Sym>, ps: seq<Piece>)
    requires forall p :: p in ps ==> PieceOk(p)
    ensures Scan(Outside(tokens, current), WriteWord(ps)) == Outside(tokens, current + ReadWord(ps))
  {
    hide PieceOk, Write, Read, Scan;
    if ps == [] {
      ScanEmpty(tokens, current);
    } else {
      var init, p := ps[..|ps| - 1], ps[|ps| - 1];
      ScanWord(tokens, current, init);
      ScanConcat(Outside(tokens, current), WriteWord(init), Write(p));
      ScanPiece(tokens, current + ReadWord(init), p);
      assert current + ReadWord(ps) == (current + ReadWord(init)) + Read(p);
    }
  }

  lemma ScanEmpty(tokens: seq<seq<Sym>>, current: seq<Sym>)
    ensures Scan(Outside(tokens, current), []) == Outside(tokens, current + [])
  {
    assert current + [] == current;
  }

  lemma {:induction false} ScanGap(tokens: seq<seq<Sym>>, current: seq<Sym>, gap: seq<Sym>)
    requires forall i :: 0 <= i < |gap| ==> gap[i].Ch? && IsWhitespace(gap[i].c)
    ensures Scan(Outside(tokens, current), gap) ==
      if gap == [] then Outside(tokens, current)
      else Outside(if current == [] then tokens else tokens + [current], [])
  {
    if gap != [] {
      var init, x := gap[..|gap| - 1], gap[|gap| - 1];
      ScanGap(tokens, current, init);
      assert x != Ch('\\') && x != Ch('\'') && x != Ch('\"');
    }
  }

  lemma {:induction false} ScanLine(items: seq<Item>)
    requires forall it :: it in items ==> ItemOk(it, false)
    ensures Scan(START, WriteLine(items)) == Outside(ReadLine(items), [])
  {
    hide ItemOk, Scan, WriteWord, ReadWord;
    if items == [] {
      ScanNothing();
    } else {
      var init, it := items[..|items| - 1], items[|items| - 1];
      ScanLine(init);
      ScanItem(ReadLine(init), it);
      LineSnoc(items);
      ScanConcat(START, WriteLine(init), WriteWord(it.word) + it.gap);
      assert ReadLine(init) + [] == ReadLine(init);
    }
  }

  lemma ScanNothing()
    ensures Scan(START, []) == Outside([], [])
  {
  }

  lemma LineSnoc(items: seq<Item>)
    requires items != []
    ensures var it := items[|items| - 1];
      WriteLine(items) == WriteLine(items[..|items| - 1]) + (WriteWord(it.word) + it.gap)
  {
  }

  lemma ScanItem(tokens: seq<seq<Sym>>, it: Item)
    requires ItemOk(it, false)
    ensures var word := ReadWord(it.word);
      Scan(Outside(tokens, []), WriteWord(it.word) + it.gap)
      == Outside(if word == [] then tokens else tokens + [word], [])
  {
    ScanConcat(Outside(tokens, []), WriteWord(it.word), it.gap);
    ScanWord(tokens, [], it.word);
    assert [] + ReadWord(it.word) == ReadWord(it.word);
    ScanGap(tokens, ReadWord(it.word), it.gap);
  }

  /** However the words of a line are quoted and spaced, splitting gives back what they stand for;
      words that stand for nothing, such as an empty pair of quotes, disappear. */
  lemma SplitReads(items: seq<Item>)
    requires LineOk(items)
    ensures Tokens(WriteLine(items)) == ReadLine(items)
  {
    hide ItemOk, Scan, WriteWord, ReadWord;
    if items == [] {
      ScanNothing();
    } else {
      var init, it := items[..|items| - 1], items[|items| - 1];
      BeforeLast(items);
      ScanLine(init);
      LineSnoc(items);
      ScanConcat(START, WriteLine(init), WriteWord(it.word) + it.gap);
      LastItem(ReadLine(init), it);
    }
  }

  lemma BeforeLast(items: seq<Item>)
    requires LineOk(items) && items != []
    ensures forall it :: it in items[..|items| - 1] ==> ItemOk(it, false)
    ensures ItemOk(items[|items| - 1], true)
  {
  }

  lemma LastItem(tokens: seq<seq<Sym>>, it: Item)
    requires ItemOk(it, true)
    ensures var word := ReadWord(it.word);
      Closed(Scan(Outside(tokens, []), WriteWord(it.word) + it.gap)) == tokens + (if word == [] then [] else [word])
  {
    ScanConcat(Outside(tokens, []), WriteWord(it.word), it.gap);
    ScanWord(tokens, [], it.word);
    assert [] + ReadWord(it.word) == ReadWord(it.word);
    ScanGap(tokens, ReadWord(it.word), it.gap);
  }

  /** What the words of a line stand for, one by one. */
  function Words(items: seq<Item>): (r: seq<seq<Sym>>)
    ensures |r| == |items| && forall k :: 0 <= k < |items| ==> r[k] == ReadWord(items[k].word)
  {
    seq(|items|, k requires 0 <= k < |items| => ReadWord(items[k].word))
  }

  lemma {:induction false} NothingDropped(items: seq<Item>)
    requires NoneEmpty(Words(items))
    ensures ReadLine(items) == Words(items)
  {
    hide ReadWord;
    if items != [] {
      var init := items[..|items| - 1];
      assert Words(items) == Words(init) + [ReadWord(items[|items| - 1].word)];
      assert forall k :: 0 <= k < |init| ==> Words(init)[k] == Words(items)[k];
      NothingDropped(init);
    }
  }

  /** Splitting gives back every word exactly if each of them stands for something. */
  lemma SplitKeepsAll(items: seq<Item>)
    requires LineOk(items)
    ensures Tokens(WriteLine(items)) == Words(items) <==> NoneEmpty(Words(items))
  {
    hide LineOk, WriteLine, ReadLine, Words, Tokens;
    SplitReads(items);
    TokensNoneEmpty(WriteLine(items));
    if NoneEmpty(Words(items)) { NothingDropped(items); }
  }

  /** The one argument a quoted empty word was meant to be is not there. */
  lemma EmptyQuotesVanish()
    ensures SplitTokens("''") == []
  {
    hide Tokens;
    var word := [SingleQuoted([])];
    var items := [Item(word, [])];
    assert items[..0] == [] && word[..0] == [];
    assert Write(SingleQuoted([])) == Syms("''");
    assert WriteWord(word) == Syms("''");
    assert WriteLine(items) == Syms("''");
    assert ReadWord(word) == [];
    assert ReadLine(items) == [];
    SplitReads(items);
  }

  // ----- every command line -----------------------------------------------------------------

  /** How a line breaks off: behind a backslash or within quotes. */
  datatype Tail =
    | Complete
    | LoneBackslash
    | OpenSingle(body: seq<Sym>)
    | OpenDouble(chars: seq<Quoted>, backslash: bool)

  predicate TailOk(t: Tail) {
    match t
    case OpenSingle(body) => forall i :: 0 <= i < |body| ==> body[i] != Ch('\'')
    case OpenDouble(chars, _) => forall i :: 0 <= i < |chars| ==> QuotedOk(chars[i])
    case _ => true
  }

  function WriteTail(t: Tail): seq<Sym> {
    match t
    case Complete => []
    case LoneBackslash => [Ch('\\')]
    case OpenSingle(body) => [Ch('\'')] + body
    case OpenDouble(chars, backslash) => [Ch('\"')] + WriteChars(chars) + (if backslash then [Ch('\\')] else [])
  }

  /** Quotes close by themselves at the end; a backslash with nothing behind it is dropped. */
  function ReadTail(t: Tail): seq<Sym> {
    match t
    case OpenSingle(body) => body
    case OpenDouble(chars, _) => ReadChars(chars)
    case _ => []
  }

  /** Any command line: words with white space behind them, and a last word that may break off. */
  datatype Line = Line(items: seq<Item>, word: seq<Piece>, tail: Tail)

  predicate AnyLine(l: Line) {
    && (forall it :: it in l.items ==> ItemOk(it, false))
    && (forall p :: p in l.word ==> PieceOk(p))
    && TailOk(l.tail)
  }

  function WriteAny(l: Line): seq<Sym> {
    WriteLine(l.items) + WriteWord(l.word) + WriteTail(l.tail)
  }

  function ReadAny(l: Line): seq<seq<Sym>> {
    var last := ReadWord(l.word) + ReadTail(l.tail);
    ReadLine(l.items) + (if last == [] then [] else [last])
  }

  lemma ScanTail(tokens: seq<seq<Sym>>, current: seq<Sym>, t: Tail)
    requires TailOk(t)
    ensures var s := Scan(Outside(tokens, current), WriteTail(t)); s.tokens == tokens && s.current == current + ReadTail(t)
  {
    hide IsWhitespace;
    var s := Outside(tokens, current);
    match t
    case Complete =>
    case LoneBackslash => ScanOne(s, Ch('\\'));
    case OpenSingle(body) =>
      ScanConcat(s, [Ch('\'')], body);
      ScanOne(s, Ch('\''));
      ScanSingle(tokens, current, body);
    case OpenDouble(chars, backslash) =>
      ScanOpenDouble(tokens, current, chars);
      if backslash {
        ScanConcat(s, [Ch('\"')] + WriteChars(chars), [Ch('\\')]);
        ScanOne(Scanner(tokens, current + ReadChars(chars), false, true, false), Ch('\\'));
      } else {
        assert WriteTail(t) == [Ch('\"')] + WriteChars(chars);
      }
  }

  lemma ScanOpenDouble(tokens: seq<seq<Sym>>, current: seq<Sym>, chars: seq<Quoted>)
    requires forall i :: 0 <= i < |chars| ==> QuotedOk(chars[i])
    ensures Scan(Outside(tokens, current), [Ch('\"')] + WriteChars(chars))
         == Scanner(tokens, current + ReadChars(chars), false, true, false)
  {
    hide IsWhitespace, Scan;
    var s := Outside(tokens, current);
    ScanConcat(s, [Ch('\"')], WriteChars(chars));
    ScanOne(s, Ch('\"'));
    ScanDouble(tokens, current, chars);
  }

  /** Splitting any command line at all gives its words, without those that stand for nothing. */
  lemma SplitReadsAny(l: Line)
    requires AnyLine(l)
    ensures Tokens(WriteAny(l)) == ReadAny(l)
  {
    hide ItemOk, PieceOk, Scan, WriteWord, ReadWord, WriteLine, ReadLine, WriteTail, ReadTail, TailOk;
    var tokens := ReadLine(l.items);
    ScanLine(l.items);
    ScanWord(tokens, [], l.word);
    ScanTail(tokens, [] + ReadWord(l.word), l.tail);
    ScanConcat(START, WriteLine(l.items) + WriteWord(l.word), WriteTail(l.tail));
    ScanConcat(START, WriteLine(l.items), WriteWord(l.word));
    assert [] + ReadWord(l.word) == ReadWord(l.word);
  }

  /** One more symbol behind a line. */
  function Extended(l: Line, x: Sym): Line {
    match l.tail
    case Complete =>
      if x == Ch('\\') then l.(tail := LoneBackslash)
      else if x == Ch('\'') then l.(tail := OpenSingle([]))
      else if x == Ch('\"') then l.(tail := OpenDouble([], false))
      else if x.Ch? && IsWhitespace(x.c) then Line(l.items + [Item(l.word, [x])], [], Complete)
      else l.(word := l.word + [Bare(x)])
    case LoneBackslash => l.(word := l.word + [Escaped(x)], tail := Complete)
    case OpenSingle(body) =>
      if x == Ch('\'') then l.(word := l.word + [SingleQuoted(body)], tail := Complete)
      else l.(tail := OpenSingle(body + [x]))
    case OpenDouble(chars, true) => l.(tail := OpenDouble(chars + [Backslashed(x)], false))
    case OpenDouble(chars, false) =>
      if x == Ch('\\') then l.(tail := OpenDouble(chars, true))
      else if x == Ch('\"') then l.(word := l.word + [DoubleQuoted(chars)], tail := Complete)
      else l.(tail := OpenDouble(chars + [AsIs(x)], false))
  }

  lemma WordSnoc(ps: seq<Piece>, p: Piece)
    ensures WriteWord(ps + [p]) == WriteWord(ps) + Write(p)
  {
    hide Write;
    assert (ps + [p])[..|ps|] == ps;
  }

  lemma CharsSnoc(qs: seq<Quoted>, q: Quoted)
    ensures WriteChars(qs + [q]) == WriteChars(qs) + WriteQuoted(q)
  {
    hide WriteQuoted;
    assert (qs + [q])[..|qs|] == qs;
  }

  lemma LineAppend(items: seq<Item>, it: Item)
    ensures WriteLine(items + [it]) == WriteLine(items) + WriteWord(it.word) + it.gap
  {
    hide WriteWord;
    assert (items + [it])[..|items|] == items;
  }

  /** The last word and its tail, with one more symbol. */
  lemma ExtendedWord(ps: seq<Piece>, p: Piece, t: Tail, x: Sym)
    requires Write(p) == WriteTail(t) + [x]
    ensures WriteWord(ps + [p]) + WriteTail(Complete) == WriteWord(ps) + WriteTail(t) + [x]
  {
    hide Write, WriteWord;
    WordSnoc(ps, p);
    assert WriteWord(ps + [p]) + WriteTail(Complete) == WriteWord(ps + [p]);
    assert WriteWord(ps) + (WriteTail(t) + [x]) == WriteWord(ps) + WriteTail(t) + [x];
  }

  lemma ExtendedTail(t: Tail, x: Sym, u: Tail)
    requires t.Complete? || t.OpenSingle? || t.OpenDouble?
    requires match t
      case Complete => (x == Ch('\\') && u == LoneBackslash) || (x == Ch('\'') && u == OpenSingle([])) || (x == Ch('\"') && u == OpenDouble([], false))
      case OpenSingle(body) => u == OpenSingle(body + [x])
      case OpenDouble(chars, true) => u == OpenDouble(chars + [Backslashed(x)], false)
      case OpenDouble(chars, false) => (x == Ch('\\') && u == OpenDouble(chars, true)) || u == OpenDouble(chars + [AsIs(x)], false)
      case _ => false
    ensures WriteTail(u) == WriteTail(t) + [x]
  {
    match t
    case OpenDouble(chars, true) => CharsSnoc(chars, Backslashed(x));
    case OpenDouble(chars, false) => CharsSnoc(chars, AsIs(x));
    case _ =>
  }

  lemma SameFront(l: Line, m: Line, x: Sym)
    requires m.items == l.items
    requires WriteWord(m.word) + WriteTail(m.tail) == WriteWord(l.word) + WriteTail(l.tail) + [x]
    ensures WriteAny(m) == WriteAny(l) + [x]
  {
    hide WriteLine, WriteWord, WriteTail;
    assert WriteAny(m) == WriteLine(m.items) + (WriteWord(m.word) + WriteTail(m.tail));
  }

  lemma NextItem(l: Line, x: Sym)
    requires l.tail.Complete?
    ensures WriteAny(Line(l.items + [Item(l.word, [x])], [], Complete)) == WriteAny(l) + [x]
  {
    hide WriteLine, WriteWord;
    LineAppend(l.items, Item(l.word, [x]));
    NothingYet();
  }

  lemma ExtendedWritten(l: Line, x: Sym)
    ensures WriteAny(Extended(l, x)) == WriteAny(l) + [x]
  {
    hide WriteLine, WriteWord, IsWhitespace, WriteChars, WriteTail, WriteAny;
    var m := Extended(l, x);
    if m.items != l.items {
      NextItem(l, x);
    } else if m.word == l.word {
      ExtendedTail(l.tail, x, m.tail);
      assert WriteWord(l.word) + (WriteTail(l.tail) + [x]) == WriteWord(l.word) + WriteTail(l.tail) + [x];
      SameFront(l, m, x);
    } else {
      var p := m.word[|l.word|];
      PieceWritten(l, x);
      ExtendedWord(l.word, p, l.tail, x);
      SameFront(l, m, x);
    }
  }

  lemma PieceWritten(l: Line, x: Sym)
    requires var m := Extended(l, x); m.items == l.items && m.word != l.word
    ensures var m := Extended(l, x);
      |m.word| == |l.word| + 1 && m.word == l.word + [m.word[|l.word|]] && m.tail == Complete
      && Write(m.word[|l.word|]) == WriteTail(l.tail) + [x]
  {
    hide IsWhitespace, WriteChars;
  }

  lemma ExtendedOk(l: Line, x: Sym)
    requires AnyLine(l)
    ensures AnyLine(Extended(l, x))
  {
    hide IsWhitespace;
  }

  /** And there is no other command line: every text is written in exactly these ways. */
  lemma {:induction false} EveryLine(xs: seq<Sym>) returns (l: Line)
    ensures AnyLine(l) && WriteAny(l) == xs
  {
    hide AnyLine, WriteAny, Extended;
    if xs == [] {
      l := Line([], [], Complete);
      NothingYet();
    } else {
      l := EveryLine(xs[..|xs| - 1]);
      ExtendedOk(l, xs[|xs| - 1]);
      ExtendedWritten(l, xs[|xs| - 1]);
      l := Extended(l, xs[|xs| - 1]);
    }
  }

  lemma NothingYet()
    ensures AnyLine(Line([], [], Complete)) && WriteAny(Line([], [], Complete)) == [] == WriteWord([])
  {
  }

  // ----- escaping ---------------------------------------------------------------------------

  /** Put a backslash before every white space, quote and backslash. */
  function EscapeChar(c: char): Piece {
    if Plain(c) then Bare(Ch(c)) else Escaped(Ch(c))
  }

  function EscapeWord(token: string): seq<Piece> {
    if token == [] then [] else EscapeWord(token[..|token| - 1]) + [EscapeChar(token[|token| - 1])]
  }

  /** The same on strings: what a caller would write. */
  function Escape(token: string): string {
    if token == [] then []
    else
      var c := token[|token| - 1];
      Escape(token[..|token| - 1]) + (if Plain(c) then [c] else ['\\', c])
  }

  /** Escaped tokens, with one space between. */
  function Join(tokens: seq<string>): string {
    if tokens == [] then []
    else if |tokens| == 1 then Escape(tokens[0])
    else Join(tokens[..|tokens| - 1]) + " " + Escape(tokens[|tokens| - 1])
  }

  /** The items of a line that goes on. */
  function SpacedItems(tokens: seq<string>): seq<Item> {
    if tokens == [] then []
    else SpacedItems(tokens[..|tokens| - 1]) + [Item(EscapeWord(tokens[|tokens| - 1]), [Ch(' ')])]
  }

  function EscapeLine(tokens: seq<string>): seq<Item>
    requires tokens != []
  {
    SpacedItems(tokens[..|tokens| - 1]) + [Item(EscapeWord(tokens[|tokens| - 1]), [])]
  }

  lemma {:induction false} EscapeWordReads(token: string)
    ensures ReadWord(EscapeWord(token)) == Syms(token)
    ensures WriteWord(EscapeWord(token)) == Syms(Escape(token))
    ensures forall p :: p in EscapeWord(token) ==> PieceOk(p)
  {
    hide Plain;
    if token != [] {
      var init, c := token[..|token| - 1], token[|token| - 1];
      EscapeWordReads(init);
      assert token == init + [c];
      EscapeCharReads(c);
      SymsConcat(init, [c]);
      SymsConcat(Escape(init), if Plain(c) then [c] else ['\\', c]);
      var w := EscapeWord(token);
      assert w[..|w| - 1] == EscapeWord(init) && w[|w| - 1] == EscapeChar(c);
    }
  }

  lemma EscapeCharReads(c: char)
    ensures Read(EscapeChar(c)) == Syms([c]) && PieceOk(EscapeChar(c))
    ensures Write(EscapeChar(c)) == Syms(if Plain(c) then [c] else ['\\', c])
  {
    hide Plain;
  }

  /** What is written before the next token. */
  function Before(tokens: seq<string>): string {
    if tokens == [] then [] else Join(tokens) + " "
  }

  lemma JoinSnoc(tokens: seq<string>, t: string)
    ensures Join(tokens + [t]) == Before(tokens) + Escape(t)
  {
    hide Escape;
    assert (tokens + [t])[..|tokens|] == tokens;
  }

  lemma LineEnd(items: seq<Item>, word: seq<Piece>, gap: seq<Sym>)
    ensures WriteLine(items + [Item(word, gap)]) == WriteLine(items) + (WriteWord(word) + gap)
    ensures ReadLine(items + [Item(word, gap)]) ==
      ReadLine(items) + (if ReadWord(word) == [] then [] else [ReadWord(word)])
  {
    hide WriteWord, ReadWord;
    var line := items + [Item(word, gap)];
    assert line[..|line| - 1] == items;
  }

  lemma {:induction false} SpacedReads(tokens: seq<string>)
    requires NoneEmpty(tokens)
    ensures WriteLine(SpacedItems(tokens)) == Syms(Before(tokens))
    ensures ReadLine(SpacedItems(tokens)) == AllSyms(tokens)
  {
    hide EscapeWord, Escape, WriteLine, ReadLine, WriteWord, ReadWord, Join;
    if tokens == [] {
      NothingWritten();
    } else {
      var init, t := tokens[..|tokens| - 1], tokens[|tokens| - 1];
      assert tokens == init + [t];
      assert t != [] && |Syms(t)| == |t|;
      SpacedReads(init);
      EscapeWordReads(t);
      LineEnd(SpacedItems(init), EscapeWord(t), [Ch(' ')]);
      JoinSnoc(init, t);
      SymsConcat(Before(init), Escape(t));
      SymsConcat(Before(init) + Escape(t), " ");
      assert Syms(" ") == [Ch(' ')];
      assert AllSyms(tokens) == AllSyms(init) + [Syms(t)];
    }
  }

  lemma NothingWritten()
    ensures WriteLine([]) == [] && ReadLine([]) == []
  {
  }

  lemma {:induction false} SpacedOk(tokens: seq<string>)
    ensures forall it :: it in SpacedItems(tokens) ==> ItemOk(it, false)
  {
    hide EscapeWord, PieceOk;
    if tokens != [] {
      SpacedOk(tokens[..|tokens| - 1]);
      EscapeWordReads(tokens[|tokens| - 1]);
      SpaceIsGap();
    }
  }

  lemma EscapeLineOk(tokens: seq<string>)
    requires tokens != []
    ensures LineOk(EscapeLine(tokens))
  {
    hide EscapeWord, PieceOk, SpacedItems;
    var items := EscapeLine(tokens);
    SpacedOk(tokens[..|tokens| - 1]);
    EscapeWordReads(tokens[|tokens| - 1]);
    forall k | 0 <= k < |items| ensures ItemOk(items[k], k == |items| - 1) {
      if k < |items| - 1 { assert items[k] in SpacedItems(tokens[..|tokens| - 1]); }
    }
  }

  lemma EscapeLineReads(tokens: seq<string>)
    requires tokens != [] && NoneEmpty(tokens)
    ensures WriteLine(EscapeLine(tokens)) == Syms(Join(tokens))
    ensures ReadLine(EscapeLine(tokens)) == AllSyms(tokens)
  {
    hide EscapeWord, Escape, WriteLine, ReadLine, WriteWord, ReadWord, Join, SpacedItems;
    var init, t := tokens[..|tokens| - 1], tokens[|tokens| - 1];
    assert tokens == init + [t];
    assert t != [] && |Syms(t)| == |t|;
    SpacedReads(init);
    EscapeWordReads(t);
    LineEnd(SpacedItems(init), EscapeWord(t), []);
    JoinSnoc(init, t);
    SymsConcat(Before(init), Escape(t));
    assert AllSyms(tokens) == AllSyms(init) + [Syms(t)];
  }

  lemma SpaceIsGap()
    ensures IsWhitespace(' ')
  {
  }

  /** Round trip: escape each token, join with spaces, split, and the tokens are back. */
  lemma SplitInvertsEscape(tokens: seq<string>)
    requires tokens != [] && NoneEmpty(tokens)
    ensures SplitTokens(Join(tokens)) == tokens
  {
    hide Tokens, WriteLine, ReadLine, Join;
    EscapeLineOk(tokens);
    EscapeLineReads(tokens);
    SplitReads(EscapeLine(tokens));
    CharsOfSyms(tokens);
  }
}
