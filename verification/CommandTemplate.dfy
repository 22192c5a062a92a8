/** Command templates of the desktop backend: placeholders are filled in with chained string
    replacement, then the result is split into program and arguments. */
module CommandTemplate {
  import opened Common
  import opened Text
  import opened SplitCommand

  /** `str::replace`: from left to right, going on behind each replacement. */
  function Replace(s: string, pattern: string, value: string): string
    requires pattern != []
    decreases |s|
  {
    if |s| < |pattern| then s
    else if pattern <= s then value + Replace(s[|pattern|..], pattern, value)
    else [s[0]] + Replace(s[1..], pattern, value)
  }

  const NAME: nat := 0
  const TITLE: nat := 1
  const APP: nat := 2

  datatype Values = Values(name: string, title: string, app: string)

  function ValueOf(v: Values, id: nat): string {
    if id == NAME then v.name else if id == TITLE then v.title else v.app
  }

  const PLACEHOLDERS := Values("{name}", "{title}", "{app}")

  /** All placeholders at once. */
  function Substitute(parts: seq<Sym>, v: Values): string {
    if parts == [] then []
    else (if parts[0].Ch? then [parts[0].c] else ValueOf(v, parts[0].id)) + Substitute(parts[1..], v)
  }

  /** A template as the configuration writes it. */
  function TextOf(parts: seq<Sym>): string {
    Substitute(parts, PLACEHOLDERS)
  }

  /** The chain of replacements the backend runs. */
  function Render(template: string, v: Values): string {
    Replace(Replace(Replace(template, "{name}", v.name), "{title}", v.title), "{app}", v.app)
  }

  predicate NoBrace(s: string) {
    forall i :: 0 <= i < |s| ==> s[i] != '{'
  }

  /** A literal character other than an opening brace, or one of the three known placeholders. */
  predicate PartOk(x: Sym) {
    if x.Ch? then x.c != '{' else x.id <= APP
  }

  predicate TemplateOk(parts: seq<Sym>) {
    forall x :: x in parts ==> PartOk(x)
  }

  lemma {:induction false} SubstituteConcat(a: seq<Sym>, b: seq<Sym>, v: Values)
    ensures Substitute(a + b, v) == Substitute(a, v) + Substitute(b, v)
  {
    hide ValueOf;
    if a == [] {
      assert a + b == b;
    } else {
      SubstituteConcat(a[1..], b, v);
      assert (a + b)[1..] == a[1..] + b;
    }
  }

  lemma {:induction false} SubstituteText(s: string, v: Values)
    ensures Substitute(Syms(s), v) == s
  {
    if s != [] {
      assert Syms(s)[1..] == Syms(s[1..]);
      SubstituteText(s[1..], v);
    }
  }

  lemma SubstituteOne(x: Sym, v: Values)
    ensures Substitute([x], v) == if x.Ch? then [x.c] else ValueOf(v, x.id)
  {
    var value := if x.Ch? then [x.c] else ValueOf(v, x.id);
    assert [x][1..] == [] && value + [] == value;
  }

  // ----- one replacement --------------------------------------------------------------------

  /** No occurrence of the pattern lies in `w`, nor begins in `w` whatever follows it. */
  predicate Clear(w: string, pattern: string) {
    forall i :: 0 <= i < |w| ==> !(pattern <= w[i..]) && !(w[i..] <= pattern)
  }

  lemma ShortReplace(s: string, pattern: string, value: string)
    requires pattern != [] && |s| < |pattern|
    ensures Replace(s, pattern, value) == s
  {
  }

  lemma ReplaceHit(pattern: string, s: string, value: string)
    requires pattern != []
    ensures Replace(pattern + s, pattern, value) == value + Replace(s, pattern, value)
  {
    assert (pattern + s)[|pattern|..] == s;
  }

  lemma ReplaceKeeps(s: string, pattern: string, value: string)
    requires pattern != [] && s != [] && !(pattern <= s)
    ensures Replace(s, pattern, value) == [s[0]] + Replace(s[1..], pattern, value)
  {
    if |s| < |pattern| { ShortReplace(s[1..], pattern, value); }
  }

  /** Clear text is passed over. */
  lemma {:induction false} ReplaceSkips(w: string, s: string, pattern: string, value: string)
    requires pattern != [] && Clear(w, pattern)
    ensures Replace(w + s, pattern, value) == w + Replace(s, pattern, value)
  {
    hide Replace;
    if w == [] {
      assert w + s == s;
    } else {
      ClearTail(w, pattern);
      ReplaceSkips(w[1..], s, pattern, value);
      ClearHead(w, s, pattern);
      ReplaceKeeps(w + s, pattern, value);
      assert (w + s)[1..] == w[1..] + s;
      assert [w[0]] + (w[1..] + Replace(s, pattern, value)) == w + Replace(s, pattern, value);
    }
  }

  lemma ClearTail(w: string, pattern: string)
    requires Clear(w, pattern) && w != []
    ensures Clear(w[1..], pattern)
  {
    forall i | 0 <= i < |w[1..]| ensures !(pattern <= w[1..][i..]) && !(w[1..][i..] <= pattern) {
      assert w[1..][i..] == w[i + 1..];
    }
  }

  lemma ClearHead(w: string, s: string, pattern: string)
    requires Clear(w, pattern) && w != []
    ensures !(pattern <= w + s)
  {
    assert w[0..] == w;
    if pattern <= w + s { Comparable(pattern, w, s); }
  }

  lemma Comparable(p: string, w: string, s: string)
    requires p <= w + s
    ensures p <= w || w <= p
  {
    if |p| <= |w| {
      assert p == (w + s)[..|p|] == w[..|p|];
    } else {
      assert w == (w + s)[..|w|] == p[..|w|];
    }
  }

  /** Replacing a pattern by itself changes nothing. */
  lemma {:induction false} ReplaceBySelf(s: string, pattern: string)
    requires pattern != []
    ensures Replace(s, pattern, pattern) == s
    decreases |s|
  {
    if |s| >= |pattern| {
      if pattern <= s {
        ReplaceBySelf(s[|pattern|..], pattern);
      } else {
        ReplaceBySelf(s[1..], pattern);
      }
    }
  }

  /** A value at least as long as the pattern never shortens a text, and the other way round. */
  lemma {:induction false} ReplaceLength(s: string, pattern: string, value: string)
    requires pattern != []
    ensures |value| >= |pattern| ==> |Replace(s, pattern, value)| >= |s|
    ensures |value| <= |pattern| ==> |Replace(s, pattern, value)| <= |s|
    decreases |s|
  {
    if |s| >= |pattern| {
      ReplaceLength(if pattern <= s then s[|pattern|..] else s[1..], pattern, value);
    }
  }

  /** Replacing an occurrence by anything else does change the text. */
  lemma {:induction false} ReplaceChanges(s: string, i: nat, pattern: string, value: string)
    requires pattern != [] && i <= |s| && pattern <= s[i..] && value != pattern
    ensures Replace(s, pattern, value) != s
    decreases |s|
  {
    if pattern <= s {
      var rest := s[|pattern|..];
      ReplaceLength(rest, pattern, value);
      assert Replace(s, pattern, value) == value + Replace(rest, pattern, value);
      assert s == pattern + rest;
      if |value| == |pattern| {
        assert (value + Replace(rest, pattern, value))[..|pattern|] == value;
        assert (pattern + rest)[..|pattern|] == pattern;
      }
    } else {
      assert i > 0 && s[1..][i - 1..] == s[i..];
      ReplaceChanges(s[1..], i - 1, pattern, value);
      assert ([s[0]] + Replace(s[1..], pattern, value))[1..] == Replace(s[1..], pattern, value);
    }
  }

  // ----- the placeholders -------------------------------------------------------------------

  function Pattern(id: nat): (p: string)
    ensures |p| >= 3
  {
    if id == NAME then ['{', 'n', 'a', 'm', 'e', '}']
    else if id == TITLE then ['{', 't', 'i', 't', 'l', 'e', '}']
    else ['{', 'a', 'p', 'p', '}']
  }

  lemma PlaceholderShape(id: nat)
    ensures var p := Pattern(id); p[0] == '{' && NoBrace(p[1..]) && forall i :: 0 <= i < |p| ==> Plain(p[i])
  {
  }

  lemma SecondLetter(id: nat, other: nat)
    requires id <= APP && other <= APP && other != id
    ensures Pattern(id)[1] != Pattern(other)[1]
  {
  }

  /** The placeholders differ in their second character, so none is mistaken for another. */
  lemma PlaceholdersClear(id: nat, other: nat)
    requires id <= APP && other <= APP && other != id
    ensures Clear(Pattern(other), Pattern(id))
  {
    hide Pattern;
    var p, q := Pattern(id), Pattern(other);
    PlaceholderShape(id);
    PlaceholderShape(other);
    SecondLetter(id, other);
    forall i | 0 <= i < |q| ensures !(p <= q[i..]) && !(q[i..] <= p) {
      assert q[i..][0] == q[i];
      if i == 0 { assert q[0..][1] == q[1]; } else { assert q[i] == q[1..][i - 1]; }
    }
  }

  lemma LiteralClear(c: char, id: nat)
    requires c != '{'
    ensures Clear([c], Pattern(id))
  {
    var w, p := [c], Pattern(id);
    assert p[0] == '{' && w[0..][0] == c;
  }

  function With(u: Values, id: nat, value: string): Values {
    if id == NAME then u.(name := value) else if id == TITLE then u.(title := value) else u.(app := value)
  }

  /** One replacement fills in one placeholder, everywhere, as long as the texts of the others are
      clear of it. */
  lemma {:induction false} StageFills(parts: seq<Sym>, u: Values, id: nat, value: string)
    requires TemplateOk(parts) && id <= APP && ValueOf(u, id) == Pattern(id)
    requires forall j :: 0 <= j <= APP && j != id ==> Clear(ValueOf(u, j), Pattern(id))
    ensures Replace(Substitute(parts, u), Pattern(id), value) == Substitute(parts, With(u, id, value))
  {
    hide Replace, Clear, Pattern;
    if parts == [] {
      ShortReplace([], Pattern(id), value);
    } else {
      var x, rest := parts[0], parts[1..];
      assert x in parts;
      StageFills(rest, u, id, value);
      if x == Hole(id) {
        ReplaceHit(Pattern(id), Substitute(rest, u), value);
      } else if x.Hole? {
        ReplaceSkips(ValueOf(u, x.id), Substitute(rest, u), Pattern(id), value);
      } else {
        LiteralClear(x.c, id);
        ReplaceSkips([x.c], Substitute(rest, u), Pattern(id), value);
      }
    }
  }

  // ----- the chain of replacements ----------------------------------------------------------

  /** Replacing placeholder `id` by `value` leaves the filled-in text `w` as it is, whatever stands
      around it. */
  predicate Stays(w: string, id: nat, value: string) {
    Clear(w, Pattern(id)) || value == Pattern(id)
  }

  /** No value is touched by a replacement that comes after it. */
  predicate Settled(v: Values) {
    Stays(v.name, TITLE, v.title) && Stays(v.name, APP, v.app) && Stays(v.title, APP, v.app)
  }

  function AfterName(v: Values): Values { Values(v.name, Pattern(TITLE), Pattern(APP)) }

  function AfterTitle(v: Values): Values { Values(v.name, v.title, Pattern(APP)) }

  lemma FirstStage(parts: seq<Sym>, name: string)
    requires TemplateOk(parts)
    ensures Replace(TextOf(parts), Pattern(NAME), name) == Substitute(parts, PLACEHOLDERS.(name := name))
  {
    hide Replace, Substitute, Clear, Pattern, TemplateOk;
    PatternsWritten();
    forall j | 0 <= j <= APP && j != NAME ensures Clear(ValueOf(PLACEHOLDERS, j), Pattern(NAME)) {
      PlaceholdersClear(NAME, j);
    }
    StageFills(parts, PLACEHOLDERS, NAME, name);
  }

  lemma PatternsWritten()
    ensures "{name}" == Pattern(NAME) && "{title}" == Pattern(TITLE) && "{app}" == Pattern(APP)
    ensures forall id :: 0 <= id <= APP ==> ValueOf(PLACEHOLDERS, id) == Pattern(id)
  {
  }

  lemma SecondStage(parts: seq<Sym>, v: Values)
    requires TemplateOk(parts) && Stays(v.name, TITLE, v.title)
    ensures Replace(Substitute(parts, AfterName(v)), Pattern(TITLE), v.title) == Substitute(parts, AfterTitle(v))
  {
    hide Replace, Substitute, Clear, Pattern, TemplateOk;
    if v.title == Pattern(TITLE) {
      ReplaceBySelf(Substitute(parts, AfterName(v)), Pattern(TITLE));
    } else {
      PlaceholdersClear(TITLE, APP);
      StageFills(parts, AfterName(v), TITLE, v.title);
    }
  }

  lemma ThirdStage(parts: seq<Sym>, v: Values)
    requires TemplateOk(parts) && Stays(v.name, APP, v.app) && Stays(v.title, APP, v.app)
    ensures Replace(Substitute(parts, AfterTitle(v)), Pattern(APP), v.app) == Substitute(parts, v)
  {
    hide Replace, Substitute, Clear, Pattern, TemplateOk;
    if v.app == Pattern(APP) {
      ReplaceBySelf(Substitute(parts, AfterTitle(v)), Pattern(APP));
      assert AfterTitle(v) == v;
    } else {
      StageFills(parts, AfterTitle(v), APP, v.app);
    }
  }

  /** Each replacement after the first fills in its own placeholder and nothing else. */
  predicate StagesExact(parts: seq<Sym>, v: Values) {
    && Replace(Substitute(parts, AfterName(v)), Pattern(TITLE), v.title) == Substitute(parts, AfterTitle(v))
    && Replace(Substitute(parts, AfterTitle(v)), Pattern(APP), v.app) == Substitute(parts, v)
  }

  /** On templates whose literals contain no opening brace the chain of replacements is
      simultaneous substitution, for all values that stay as they are. */
  lemma ChainedIsSimultaneous(parts: seq<Sym>, v: Values)
    requires TemplateOk(parts) && Settled(v)
    ensures Render(TextOf(parts), v) == Substitute(parts, v)
  {
    hide Replace, Substitute, Pattern, TemplateOk, Stays;
    PatternsWritten();
    FirstStage(parts, v.name);
    SecondStage(parts, v);
    ThirdStage(parts, v);
  }

  /** A template with literal text behind placeholder `id`, and what it becomes. */
  lemma Behind(id: nat, lit: string, v: Values)
    requires id <= APP && NoBrace(lit)
    ensures TemplateOk([Hole(id)] + Syms(lit)) && Substitute([Hole(id)] + Syms(lit), v) == ValueOf(v, id) + lit
  {
    SubstituteConcat([Hole(id)], Syms(lit), v);
    SubstituteOne(Hole(id), v);
    SubstituteText(lit, v);
  }

  /** Text that is not clear of a placeholder can be completed so that the replacement hits it. */
  lemma Interferes(w: string, id: nat, value: string) returns (lit: string)
    requires !Stays(w, id, value)
    ensures NoBrace(lit) && Replace(w + lit, Pattern(id), value) != w + lit
  {
    hide Replace, Pattern;
    var p := Pattern(id);
    var i :| 0 <= i < |w| && (p <= w[i..] || w[i..] <= p);
    PlaceholderShape(id);
    lit := Completed(w, i, p);
    ReplaceChanges(w + lit, i, p, value);
  }

  /** What is missing behind `w` for the pattern to stand at `i`. */
  lemma Completed(w: string, i: nat, p: string) returns (lit: string)
    requires i < |w| && |p| >= 1 && NoBrace(p[1..]) && (p <= w[i..] || w[i..] <= p)
    ensures NoBrace(lit) && p <= (w + lit)[i..]
  {
    if p <= w[i..] {
      lit := [];
      assert w + lit == w;
    } else {
      lit := p[|w| - i..];
      assert lit == p[1..][|w| - i - 1..];
      assert (w + lit)[i..] == w[i..] + lit == p;
    }
  }

  /** Over all templates the stages do their own work only exactly if the values stay: a value that
      begins with, contains or ends in a piece of a later placeholder is filled in again. */
  lemma StagesExactly(v: Values)
    ensures (forall parts | TemplateOk(parts) :: StagesExact(parts, v)) <==> Settled(v)
  {
    hide Replace, Substitute, Pattern, TemplateOk, Stays;
    if Settled(v) {
      forall parts | TemplateOk(parts) ensures StagesExact(parts, v) {
        SecondStage(parts, v);
        ThirdStage(parts, v);
      }
    } else if !Stays(v.name, TITLE, v.title) {
      var lit := Interferes(v.name, TITLE, v.title);
      Behind(NAME, lit, AfterName(v));
      Behind(NAME, lit, AfterTitle(v));
      assert !StagesExact([Hole(NAME)] + Syms(lit), v);
    } else {
      var id := if Stays(v.name, APP, v.app) then TITLE else NAME;
      var lit := Interferes(ValueOf(v, id), APP, v.app);
      Behind(id, lit, AfterTitle(v));
      Behind(id, lit, v);
      assert !StagesExact([Hole(id)] + Syms(lit), v);
    }
  }

  // ----- splitting after rendering ----------------------------------------------------------

  /** A value that splitting leaves alone. */
  predicate PlainValue(s: string) {
    s != [] && forall i :: 0 <= i < |s| ==> Plain(s[i])
  }

  /** The values of all placeholders that occur are plain. */
  predicate Fits(parts: seq<Sym>, v: Values) {
    forall x :: x in parts && x.Hole? ==> PlainValue(ValueOf(v, x.id))
  }

  lemma {:induction false} ScanPlain(s: Scanner, w: string)
    requires PlainValue(w)
    ensures Scan(s, Syms(w)) == s.(current := s.current + Syms(w), escape := false)
  {
    hide IsWhitespace;
    var init, c := w[..|w| - 1], w[|w| - 1];
    assert Syms(w)[..|w| - 1] == Syms(init);
    if init == [] {
      assert Syms(init) == [] && Syms(w) == [Ch(c)];
    } else {
      ScanPlain(s, init);
      assert s.current + Syms(w) == (s.current + Syms(init)) + [Ch(c)];
    }
  }

  /** The scanner's state with every placeholder filled in. */
  function FillWord(word: seq<Sym>, v: Values): seq<Sym> {
    Syms(Substitute(word, v))
  }

  function FillWords(words: seq<seq<Sym>>, v: Values): (r: seq<seq<Sym>>)
    ensures |r| == |words| && forall k :: 0 <= k < |words| ==> r[k] == FillWord(words[k], v)
  {
    seq(|words|, k requires 0 <= k < |words| => FillWord(words[k], v))
  }

  function FillScanner(s: Scanner, v: Values): Scanner {
    s.(tokens := FillWords(s.tokens, v), current := FillWord(s.current, v))
  }

  /** Whatever stands in the scanner's variables has come from its input. */
  predicate From(s: Scanner, xs: seq<Sym>) {
    && (forall x :: x in s.current ==> x in xs)
    && (forall k :: 0 <= k < |s.tokens| ==> forall x :: x in s.tokens[k] ==> x in xs)
  }

  lemma {:induction false} ScanFrom(xs: seq<Sym>)
    ensures From(Scan(START, xs), xs)
  {
    hide IsWhitespace;
    if xs != [] {
      var init := xs[..|xs| - 1];
      ScanFrom(init);
      assert forall x :: x in init ==> x in xs;
    }
  }

  lemma FillNonEmpty(word: seq<Sym>, v: Values)
    requires Fits(word, v)
    ensures FillWord(word, v) == [] <==> word == []
  {
    hide Plain, ValueOf;
    FillEmpty(v);
    assert |FillWord(word, v)| == |Substitute(word, v)|;
    if word != [] {
      var x := word[0];
      assert x in word;
      assert |if x.Ch? then [x.c] else ValueOf(v, x.id)| > 0;
    }
  }

  lemma FillSnoc(word: seq<Sym>, x: Sym, v: Values)
    ensures FillWord(word + [x], v) == FillWord(word, v) + FillWord([x], v)
  {
    SubstituteConcat(word, [x], v);
    SymsConcat(Substitute(word, v), Substitute([x], v));
  }

  lemma FillOneSym(x: Sym, v: Values)
    ensures FillWord([x], v) == if x.Ch? then [x] else Syms(ValueOf(v, x.id))
  {
    SubstituteOne(x, v);
  }

  /** One step on the template is the same step on the rendered text. */
  lemma AdvanceFills(s: Scanner, x: Sym, v: Values)
    requires Fits(s.current, v) && Fits([x], v)
    ensures Scan(FillScanner(s, v), FillWord([x], v)) == FillScanner(Advance(s, x), v)
  {
    hide IsWhitespace, FillWord, Scan;
    FillOneSym(x, v);
    FillSnoc(s.current, x, v);
    FillNonEmpty(s.current, v);
    if x.Hole? {
      assert x in [x];
      ScanPlain(FillScanner(s, v), ValueOf(v, x.id));
    } else {
      ScanOne(FillScanner(s, v), x);
      FillEmpty(v);
      assert FillWords(s.tokens + [s.current], v) == FillWords(s.tokens, v) + [FillWord(s.current, v)];
    }
  }

  lemma FillEmpty(v: Values)
    ensures FillWord([], v) == []
  {
  }

  /** Scanning the rendered text is rendering the scanned template. */
  lemma {:induction false} ScanFills(xs: seq<Sym>, v: Values)
    requires Fits(xs, v)
    ensures Scan(START, FillWord(xs, v)) == FillScanner(Scan(START, xs), v)
  {
    hide Advance, FillWord;
    if xs == [] {
      FillEmpty(v);
      assert FillWords([], v) == [];
    } else {
      var init, x := xs[..|xs| - 1], xs[|xs| - 1];
      assert xs == init + [x];
      assert forall y :: y in init ==> y in xs;
      assert x in xs;
      ScanFills(init, v);
      FillSnoc(init, x, v);
      ScanConcat(START, FillWord(init, v), FillWord([x], v));
      ScanFrom(init);
      AdvanceFills(Scan(START, init), x, v);
    }
  }

  /** Rendering and splitting commute on symbols. */
  lemma TokensFill(xs: seq<Sym>, v: Values)
    requires Fits(xs, v)
    ensures Tokens(FillWord(xs, v)) == FillWords(Tokens(xs), v)
  {
    hide Scan, FillWord;
    ScanFills(xs, v);
    ScanFrom(xs);
    var s := Scan(START, xs);
    FillNonEmpty(s.current, v);
    assert FillWords(s.tokens + [s.current], v) == FillWords(s.tokens, v) + [FillWord(s.current, v)];
  }

  /** The text of each word, with all placeholders filled in. */
  function SubstituteEach(words: seq<seq<Sym>>, v: Values): (r: seq<string>)
    ensures |r| == |words| && forall k :: 0 <= k < |words| ==> r[k] == Substitute(words[k], v)
  {
    seq(|words|, k requires 0 <= k < |words| => Substitute(words[k], v))
  }

  lemma SplitSubstituted(parts: seq<Sym>, v: Values)
    requires Fits(parts, v)
    ensures SplitTokens(Substitute(parts, v)) == SubstituteEach(Tokens(parts), v)
  {
    hide Tokens, Substitute;
    TokensFill(parts, v);
    assert FillWords(Tokens(parts), v) == AllSyms(SubstituteEach(Tokens(parts), v));
    CharsOfSyms(SubstituteEach(Tokens(parts), v));
  }

  lemma PlaceholdersFit(parts: seq<Sym>)
    requires TemplateOk(parts)
    ensures Fits(parts, PLACEHOLDERS)
  {
    hide Plain, ValueOf, Pattern;
    PatternsWritten();
    forall x | x in parts && x.Hole? ensures PlainValue(ValueOf(PLACEHOLDERS, x.id)) {
      PlaceholderShape(x.id);
    }
  }

  /** Each token rendered by itself. */
  function RenderEach(tokens: seq<string>, v: Values): (r: seq<string>)
    ensures |r| == |tokens| && forall k :: 0 <= k < |tokens| ==> r[k] == Render(tokens[k], v)
  {
    seq(|tokens|, k requires 0 <= k < |tokens| => Render(tokens[k], v))
  }

  /** Splitting the rendered command is rendering each token of the split template. */
  predicate Commutes(parts: seq<Sym>, v: Values) {
    SplitTokens(Render(TextOf(parts), v)) == RenderEach(SplitTokens(TextOf(parts)), v)
  }

  /** A value never changes how a command line falls into arguments, as long as the values that
      occur are not empty and free of white space, quotes and backslashes. */
  lemma SplitCommutesWithRender(parts: seq<Sym>, v: Values)
    requires TemplateOk(parts) && Settled(v) && Fits(parts, v)
    ensures Commutes(parts, v)
  {
    hide Tokens, Substitute, Render, TemplateOk, Settled;
    ChainedIsSimultaneous(parts, v);
    SplitSubstituted(parts, v);
    PlaceholdersFit(parts);
    SplitSubstituted(parts, PLACEHOLDERS);
    var words := Tokens(parts);
    forall k | 0 <= k < |words| ensures Render(TextOf(words[k]), v) == Substitute(words[k], v) {
      TokenOk(parts, k);
      ChainedIsSimultaneous(words[k], v);
    }
    assert SubstituteEach(words, v) == RenderEach(SubstituteEach(words, PLACEHOLDERS), v);
  }

  lemma TokenOk(parts: seq<Sym>, k: nat)
    requires TemplateOk(parts) && k < |Tokens(parts)|
    ensures TemplateOk(Tokens(parts)[k])
  {
    hide Scan;
    ScanFrom(parts);
    var s := Scan(START, parts);
    if k < |s.tokens| { assert Tokens(parts)[k] == s.tokens[k]; }
  }

  // ----- exactly the plain values -----------------------------------------------------------

  /** Symbols in the scanner's hands. */
  function Kept(tokens: seq<seq<Sym>>): nat {
    if tokens == [] then 0 else Kept(tokens[..|tokens| - 1]) + |tokens[|tokens| - 1]|
  }

  function Weight(s: Scanner): nat { Kept(s.tokens) + |s.current| }

  lemma KeptSnoc(tokens: seq<seq<Sym>>, word: seq<Sym>)
    ensures Kept(tokens + [word]) == Kept(tokens) + |word|
  {
    assert (tokens + [word])[..|tokens|] == tokens;
  }

  /** Only quotes, backslashes and separating white space get lost; where nothing has been lost so
      far, a step keeps its symbol exactly if it is plain. */
  lemma StepWeight(s: Scanner, x: Sym)
    ensures Weight(Advance(s, x)) <= Weight(s) + 1
    ensures !s.inSingle && !s.inDouble && !s.escape && Weight(Advance(s, x)) == Weight(s) + 1 ==>
      PlainSym(x) && !Advance(s, x).inSingle && !Advance(s, x).inDouble && !Advance(s, x).escape
  {
    hide IsWhitespace;
    KeptSnoc(s.tokens, s.current);
  }

  lemma {:induction false} LosslessPlain(xs: seq<Sym>)
    ensures Weight(Scan(START, xs)) <= |xs|
    ensures var s := Scan(START, xs);
      Weight(s) == |xs| ==> !s.inSingle && !s.inDouble && !s.escape && forall i :: 0 <= i < |xs| ==> PlainSym(xs[i])
  {
    hide Advance, PlainSym;
    if xs == [] {
    } else {
      LosslessPlain(xs[..|xs| - 1]);
      StepWeight(Scan(START, xs[..|xs| - 1]), xs[|xs| - 1]);
    }
  }

  /** A line is its own only token exactly if it is a plain value. */
  lemma SplitAlone(w: string)
    ensures SplitTokens(w) == [w] <==> PlainValue(w)
  {
    hide Scan, Plain;
    var s := Scan(START, Syms(w));
    if PlainValue(w) {
      ScanPlain(START, w);
      assert s.current == Syms(w) && s.tokens == [];
      assert Chars(Syms(w)) == w;
    }
    if SplitTokens(w) == [w] {
      assert |SplitTokens(w)| == |Tokens(Syms(w))| == 1;
      assert |Tokens(Syms(w))[0]| == |w|;
      KeptSnoc([], Tokens(Syms(w))[0]);
      assert [] + [Tokens(Syms(w))[0]] == Tokens(Syms(w));
      LosslessPlain(Syms(w));
      SplitNoneEmpty(w);
      assert forall i :: 0 <= i < |w| ==> PlainSym(Syms(w)[i]);
    }
  }

  /** The template uses these placeholders only. */
  predicate Uses(parts: seq<Sym>, ids: set<nat>) {
    forall x :: x in parts && x.Hole? ==> x.id in ids
  }

  predicate AllPlain(ids: set<nat>, v: Values) {
    forall id :: id in ids ==> PlainValue(ValueOf(v, id))
  }

  /** A template that is one placeholder. */
  lemma OneHole(id: nat, v: Values)
    requires id <= APP
    ensures TemplateOk([Hole(id)]) && Substitute([Hole(id)], v) == ValueOf(v, id)
    ensures Tokens([Hole(id)]) == [[Hole(id)]]
    ensures SubstituteEach(Tokens([Hole(id)]), v) == [ValueOf(v, id)]
  {
    hide ValueOf;
    ScanOne(START, Hole(id));
    var none: seq<seq<Sym>> := [];
    assert START.current + [Hole(id)] == [Hole(id)] && none + [[Hole(id)]] == [[Hole(id)]];
    SubstituteOne(Hole(id), v);
  }

  /** Values that stay, filled into placeholders `ids`: over all templates with these placeholders,
      splitting commutes with rendering exactly if the values of all of them are plain. */
  lemma CommutesExactly(v: Values, ids: set<nat>)
    requires Settled(v) && forall id :: id in ids ==> id <= APP
    ensures (forall parts | TemplateOk(parts) && Uses(parts, ids) :: Commutes(parts, v)) <==> AllPlain(ids, v)
  {
    hide Settled, Commutes, TemplateOk, ValueOf;
    if AllPlain(ids, v) {
      forall parts | TemplateOk(parts) && Uses(parts, ids) ensures Commutes(parts, v) {
        SplitCommutesWithRender(parts, v);
      }
    } else {
      var id :| id in ids && !PlainValue(ValueOf(v, id));
      LonePlaceholder(v, id);
      assert TemplateOk([Hole(id)]) && Uses([Hole(id)], ids) by { OneHole(id, v); }
    }
  }

  lemma LonePlaceholder(v: Values, id: nat)
    requires Settled(v) && id <= APP
    ensures Commutes([Hole(id)], v) <==> PlainValue(ValueOf(v, id))
  {
    hide Settled, Tokens, Substitute, Render, ValueOf, SplitTokens, PlainValue;
    var parts := [Hole(id)];
    OneHole(id, v);
    OneHole(id, PLACEHOLDERS);
    ChainedIsSimultaneous(parts, v);
    SplitAlone(ValueOf(v, id));
    PlaceholdersFit(parts);
    SplitSubstituted(parts, PLACEHOLDERS);
    assert SplitTokens(TextOf(parts)) == [TextOf(parts)];
  }

  // ----- the two backend commands -----------------------------------------------------------

  datatype CommandError = NotConfigured | NotSupported | NoTarget | EmptyCommand

  function AsResult(tokens: seq<string>): Result<Command, CommandError> {
    var command := AsCommand(tokens);
    if command.None? then Err(EmptyCommand) else Ok(command.value)
  }

  /** What `open_application` spawns. */
  function OpenCommand(template: Option<string>, name: string): Result<Command, CommandError> {
    if template.None? then Err(NotConfigured)
    else if name == [] then Err(NoTarget)
    else AsResult(SplitTokens(Replace(template.value, "{name}", name)))
  }

  function Cleaned(raw: Option<string>): Option<string> {
    if raw.None? || Trim(raw.value) == [] then None else Some(Trim(raw.value))
  }

  function OrEmpty(s: Option<string>): string {
    if s.None? then [] else s.value
  }

  /** The title names the target, the application stands in for it. */
  function FocusValues(title: Option<string>, app: Option<string>): Option<Values> {
    var t, a := Cleaned(title), Cleaned(app);
    if t.None? && a.None? then None
    else Some(Values(if t.Some? then t.value else a.value, OrEmpty(t), OrEmpty(a)))
  }

  /** What `focus_window` spawns. */
  function FocusCommand(template: Option<string>, title: Option<string>, app: Option<string>): Result<Command, CommandError> {
    if template.None? then Err(NotSupported)
    else
      var v := FocusValues(title, app);
      if v.None? then Err(NoTarget) else AsResult(SplitTokens(Render(template.value, v.value)))
  }

  /** The command is the template's own list of arguments, each with its placeholders filled in. */
  predicate Fills(r: Result<Command, CommandError>, parts: seq<Sym>, v: Values) {
    r.Ok? && [r.value.program] + r.value.args == SubstituteEach(Tokens(parts), v)
  }

  /** Where the values that occur are plain, `focus_window` spawns the template's own arguments. */
  lemma FocusArguments(parts: seq<Sym>, title: Option<string>, app: Option<string>)
    requires TemplateOk(parts) && Tokens(parts) != [] && FocusValues(title, app).Some?
    requires Settled(FocusValues(title, app).value) && Fits(parts, FocusValues(title, app).value)
    ensures Fills(FocusCommand(Some(TextOf(parts)), title, app), parts, FocusValues(title, app).value)
  {
    hide Tokens, Substitute, Render, TemplateOk, Settled, Fits, FocusValues;
    var v := FocusValues(title, app).value;
    ChainedIsSimultaneous(parts, v);
    SplitSubstituted(parts, v);
    assert |SubstituteEach(Tokens(parts), v)| == |Tokens(parts)|;
  }

  /** For any target whose texts stay: over all templates with placeholders `ids`, `focus_window`
      spawns the template's own arguments exactly if these placeholders stand for plain values.
      A target without an application has an empty value for it, which is not plain. */
  lemma FocusExactly(title: Option<string>, app: Option<string>, ids: set<nat>)
    requires FocusValues(title, app).Some? && Settled(FocusValues(title, app).value)
    requires forall id :: id in ids ==> id <= APP
    ensures (forall parts | TemplateOk(parts) && Tokens(parts) != [] && Uses(parts, ids) ::
               Fills(FocusCommand(Some(TextOf(parts)), title, app), parts, FocusValues(title, app).value))
      <==> AllPlain(ids, FocusValues(title, app).value)
  {
    hide Settled, Fills, TemplateOk, ValueOf, FocusCommand, FocusValues, Tokens, PlainValue;
    var v := FocusValues(title, app).value;
    if AllPlain(ids, v) {
      forall parts | TemplateOk(parts) && Tokens(parts) != [] && Uses(parts, ids)
        ensures Fills(FocusCommand(Some(TextOf(parts)), title, app), parts, v)
      {
        FocusArguments(parts, title, app);
      }
    } else {
      var id :| id in ids && !PlainValue(ValueOf(v, id));
      OneHole(id, v);
      FocusAlone(title, app, id);
      assert Uses([Hole(id)], ids);
    }
  }

  lemma FocusAlone(title: Option<string>, app: Option<string>, id: nat)
    requires FocusValues(title, app).Some? && Settled(FocusValues(title, app).value) && id <= APP
    ensures var v := FocusValues(title, app).value;
      Fills(FocusCommand(Some(TextOf([Hole(id)])), title, app), [Hole(id)], v) ==> PlainValue(ValueOf(v, id))
  {
    hide Settled, ValueOf, FocusValues, Tokens, Substitute, Render, SplitTokens, PlainValue;
    var v := FocusValues(title, app).value;
    OneHole(id, v);
    ChainedIsSimultaneous([Hole(id)], v);
    SplitAlone(ValueOf(v, id));
  }

  /** `open_application` fills in the name only; the others would stay as they are written. */
  function OpenValues(name: string): Values { PLACEHOLDERS.(name := name) }

  lemma OpenArguments(parts: seq<Sym>, name: string)
    requires TemplateOk(parts) && Tokens(parts) != [] && PlainValue(name)
    ensures Fills(OpenCommand(Some(TextOf(parts)), name), parts, OpenValues(name))
  {
    hide Tokens, Substitute, Replace, TemplateOk, Plain, Pattern;
    PatternsWritten();
    FirstStage(parts, name);
    PlaceholdersFit(parts);
    SplitSubstituted(parts, OpenValues(name));
    assert |SubstituteEach(Tokens(parts), OpenValues(name))| == |Tokens(parts)|;
  }

  /** Over all templates, `open_application` spawns the template's own arguments exactly if the name
      is a plain value. */
  lemma OpenExactly(name: string)
    ensures (forall parts | TemplateOk(parts) && Tokens(parts) != [] ::
               Fills(OpenCommand(Some(TextOf(parts)), name), parts, OpenValues(name)))
      <==> PlainValue(name)
  {
    hide Fills, TemplateOk, OpenCommand, Tokens;
    if PlainValue(name) {
      forall parts | TemplateOk(parts) && Tokens(parts) != []
        ensures Fills(OpenCommand(Some(TextOf(parts)), name), parts, OpenValues(name))
      {
        OpenArguments(parts, name);
      }
    } else {
      OneHole(NAME, OpenValues(name));
      OpenAlone(name);
    }
  }

  lemma OpenAlone(name: string)
    ensures Fills(OpenCommand(Some(TextOf([Hole(NAME)])), name), [Hole(NAME)], OpenValues(name)) ==> PlainValue(name)
  {
    hide Tokens, Substitute, Replace, SplitTokens, PlainValue, Pattern;
    PatternsWritten();
    OneHole(NAME, OpenValues(name));
    FirstStage([Hole(NAME)], name);
    SplitAlone(name);
  }

  predicate Blank(raw: Option<string>) {
    raw.None? || Trim(raw.value) == ""
  }

  /** What is filled in for a target: a title names it, an application alone stands in as the name,
      and whatever is missing or blank is filled in as nothing. */
  lemma TargetExactly(title: Option<string>, app: Option<string>)
    ensures FocusValues(title, app).None? <==> Blank(title) && Blank(app)
    ensures !Blank(title) ==>
      FocusValues(title, app) == Some(Values(Trim(title.value), Trim(title.value), if Blank(app) then "" else Trim(app.value)))
    ensures Blank(title) && !Blank(app) ==> FocusValues(title, app) == Some(Values(Trim(app.value), "", Trim(app.value)))
  {
    hide Trim;
  }

  /** When no command is spawned, and why. */
  lemma RefusedExactly(template: Option<string>, name: string, title: Option<string>, app: Option<string>)
    ensures OpenCommand(template, name) == Err(NotConfigured) <==> template.None?
    ensures OpenCommand(template, name) == Err(NoTarget) <==> template.Some? && name == ""
    ensures OpenCommand(template, name) == Err(EmptyCommand) <==>
      template.Some? && name != "" && SplitTokens(Replace(template.value, "{name}", name)) == []
    ensures FocusCommand(template, title, app) == Err(NotSupported) <==> template.None?
    ensures FocusCommand(template, title, app) == Err(NoTarget) <==> template.Some? && Blank(title) && Blank(app)
    ensures FocusCommand(template, title, app) == Err(EmptyCommand) <==>
      template.Some? && FocusValues(title, app).Some? && SplitTokens(Render(template.value, FocusValues(title, app).value)) == []
  {
    hide Replace, Render, SplitTokens, Trim;
  }

  /** An application without a title is named by itself. */
  lemma ApplicationAlone()
    ensures FocusCommand(Some("{name}"), None, Some("x")) == Ok(Command("x", []))
  {
    hide Render, SplitTokens, Trim;
    TrimmedTarget();
    NameAlone();
    SplitAlone("x");
  }

  lemma NameAlone()
    ensures Render("{name}", Values("x", "", "x")) == "x"
  {
    hide Replace, Pattern;
    PatternsWritten();
    ReplaceHit("{name}", [], "x");
    assert "{name}" + [] == "{name}" && "x" + [] == "x";
    ShortReplace([], "{name}", "x");
    ShortReplace("x", "{title}", "");
    ShortReplace("x", "{app}", "x");
  }

  // ----- where the conditions bite ----------------------------------------------------------

  /** A window title that is itself a placeholder is filled in again: with the application. */
  lemma BraceInTitle()
    ensures FocusValues(Some("{app}"), Some("x")) == Some(Values("{app}", "{app}", "x"))
    ensures FocusCommand(Some("{name}"), Some("{app}"), Some("x")) == Ok(Command("x", []))
  {
    hide Render, SplitTokens, Trim;
    TrimmedTarget();
    FilledTwice();
    SplitAlone("x");
  }

  lemma TrimmedTarget()
    ensures Trim("{app}") == "{app}" && Trim("x") == "x"
  {
    hide Trim;
    assert Trimmed("{app}") && Trimmed("x");
  }

  lemma FilledTwice()
    ensures Render("{name}", Values("{app}", "{app}", "x")) == "x"
  {
    hide Replace, Pattern;
    PatternsWritten();
    ReplaceHit("{name}", [], "{app}");
    assert "{name}" + [] == "{name}" && "{app}" + [] == "{app}" && "x" + [] == "x";
    ShortReplace([], "{name}", "{app}");
    PlaceholdersClear(TITLE, APP);
    ReplaceSkips("{app}", [], "{title}", "{app}");
    ShortReplace([], "{title}", "{app}");
    ReplaceHit("{app}", [], "x");
    ShortReplace([], "{app}", "x");
  }

  /** An application name with a space in it falls into two arguments. */
  lemma SpaceInName()
    ensures OpenCommand(Some("{name}"), "a b") == Ok(Command("a", ["b"]))
  {
    hide Replace, SplitTokens;
    ReplaceHit("{name}", [], "a b");
    assert "{name}" + [] == "{name}" && "a b" + [] == "a b";
    ShortReplace([], "{name}", "a b");
    SplitPair();
  }

  lemma SplitPair()
    ensures SplitTokens("a b") == ["a", "b"]
  {
    hide SplitTokens;
    PlainEscape('a');
    PlainEscape('b');
    assert ["a", "b"][..1] == ["a"];
    assert Join(["a", "b"]) == "a b";
    SplitInvertsEscape(["a", "b"]);
  }

  lemma PlainEscape(c: char)
    requires Plain(c)
    ensures Escape([c]) == [c]
  {
    assert [c][..0] == [];
    assert Escape([]) + [c] == [c];
  }
}
