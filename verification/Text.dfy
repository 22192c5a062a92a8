/** The string primitives of the Rust standard library that the daemon relies on:
    `char::is_whitespace`, `str::trim`, `to_ascii_lowercase` and the UTF-8 length. */
module Text {

  /** The Unicode `White_Space` property, which is what `char::is_whitespace` tests. */
  predicate IsWhitespace(c: char) {
    || '\U{9}' <= c <= '\U{D}'
    || c == ' '
    || c == '\U{85}'
    || c == '\U{A0}'
    || c == '\U{1680}'
    || '\U{2000}' <= c <= '\U{200A}'
    || c == '\U{2028}' || c == '\U{2029}'
    || c == '\U{202F}'
    || c == '\U{205F}'
    || c == '\U{3000}'
  }

  /** The 25 characters with that property, one by one. */
  const WHITE_SPACE: seq<char> := [
    '\U{9}', '\U{A}', '\U{B}', '\U{C}', '\U{D}', ' ', '\U{85}', '\U{A0}', '\U{1680}',
    '\U{2000}', '\U{2001}', '\U{2002}', '\U{2003}', '\U{2004}', '\U{2005}', '\U{2006}',
    '\U{2007}', '\U{2008}', '\U{2009}', '\U{200A}', '\U{2028}', '\U{2029}', '\U{202F}',
    '\U{205F}', '\U{3000}']

  lemma ListedIsWhite(k: nat)
    requires k < 25
    ensures |WHITE_SPACE| == 25 && IsWhitespace(WHITE_SPACE[k])
  {
  }

  /** Where a white-space character stands in the list. */
  lemma WhiteIsListed(c: char) returns (k: nat)
    requires IsWhitespace(c)
    ensures k < |WHITE_SPACE| && WHITE_SPACE[k] == c
  {
    var n := c as int;
    k := if n <= 13 then n - 9 else if n == 0x20 then 5 else if n == 0x85 then 6 else if n == 0xA0 then 7
         else if n == 0x1680 then 8 else if n <= 0x200A then n - 0x2000 + 9 else if n == 0x2028 then 20
         else if n == 0x2029 then 21 else if n == 0x202F then 22 else if n == 0x205F then 23 else 24;
  }

  lemma WhitespaceExactly(c: char)
    ensures |WHITE_SPACE| == 25
    ensures IsWhitespace(c) <==> c in WHITE_SPACE
  {
    hide IsWhitespace;
    ListedIsWhite(0);
    if IsWhitespace(c) {
      var k := WhiteIsListed(c);
    }
    if c in WHITE_SPACE {
      var k :| 0 <= k < |WHITE_SPACE| && WHITE_SPACE[k] == c;
      ListedIsWhite(k);
    }
  }

  function TrimStart(s: string): (r: string)
    ensures r == [] || !IsWhitespace(r[0])
    ensures |r| <= |s| && r == s[|s| - |r|..]
  {
    if s == [] then [] else if IsWhitespace(s[0]) then TrimStart(s[1..]) else s
  }

  function TrimEnd(s: string): (r: string)
    ensures r == [] || !IsWhitespace(r[|r| - 1])
    ensures |r| <= |s| && r == s[..|r|]
  {
    if s == [] then [] else if IsWhitespace(s[|s| - 1]) then TrimEnd(s[..|s| - 1]) else s
  }

  /** Neither the first nor the last character is whitespace. */
  predicate Trimmed(s: string) {
    s == [] || (!IsWhitespace(s[0]) && !IsWhitespace(s[|s| - 1]))
  }

  function Trim(s: string): (r: string)
    ensures Trimmed(r)
    ensures Trimmed(s) ==> r == s
    ensures |r| <= |s|
  {
    TrimEnd(TrimStart(s))
  }

  function LowerChar(c: char): (r: char)
    ensures IsWhitespace(c) == IsWhitespace(r)
    ensures !('A' <= r <= 'Z')
  {
    if 'A' <= c <= 'Z' then (c as int + 32) as char else c
  }

  function Lower(s: string): (r: string)
    ensures |r| == |s|
    ensures forall i :: 0 <= i < |s| ==> r[i] == LowerChar(s[i])
  {
    seq(|s|, i requires 0 <= i < |s| => LowerChar(s[i]))
  }

  /** Lower case keeps white space where it is. */
  lemma LowerTrimmed(s: string)
    requires Trimmed(s)
    ensures Trimmed(Lower(s))
  {
    hide IsWhitespace;
  }

  /** `raw.trim().to_ascii_lowercase()`, the normalisation used by every whitelist. */
  function Normalize(raw: string): (r: string)
    ensures Trimmed(r)
  {
    LowerTrimmed(Trim(raw));
    Lower(Trim(raw))
  }

  /** A string without ASCII capitals that is already trimmed is its own normal form. */
  lemma NormalizeFixes(s: string)
    requires Trimmed(s)
    requires forall i :: 0 <= i < |s| ==> !('A' <= s[i] <= 'Z')
    ensures Normalize(s) == s
  {
    assert forall i :: 0 <= i < |s| ==> Lower(s)[i] == s[i];
  }

  /** Normalising an already normalised string changes nothing. */
  lemma NormalizeIdempotent(raw: string)
    ensures Normalize(Normalize(raw)) == Normalize(raw)
  {
    NormalizeFixes(Normalize(raw));
  }

  /** `str::len`, which counts UTF-8 bytes and not characters. */
  function Utf8Len(s: string): (n: nat)
    ensures n >= |s|
  {
    if s == [] then 0
    else
      var c := s[0] as int;
      (if c < 0x80 then 1 else if c < 0x800 then 2 else if c < 0x1_0000 then 3 else 4) + Utf8Len(s[1..])
  }

  lemma {:induction false} AsciiLen(s: string)
    requires forall i :: 0 <= i < |s| ==> s[i] as int < 0x80
    ensures Utf8Len(s) == |s|
  {
    if s != [] { AsciiLen(s[1..]); }
  }

  /** What is left of an optional string once it has been cleaned up: not empty, and trimmed. */
  predicate NonBlank(s: string) {
    s != [] && Trimmed(s)
  }

  // ----- what trimming and normalising mean -------------------------------------------------

  predicate AllWhite(s: string) {
    forall i :: 0 <= i < |s| ==> IsWhitespace(s[i])
  }

  /** `t` stands in `s` from `i` to `j`, with nothing but white space around it. */
  predicate StandsAt(s: string, t: string, i: nat, j: nat) {
    i <= j <= |s| && t == s[i..j] && AllWhite(s[..i]) && AllWhite(s[j..])
  }

  ghost predicate StandsIn(s: string, t: string) {
    exists i: nat, j: nat :: StandsAt(s, t, i, j)
  }

  lemma {:induction false} TrimStartSkips(s: string)
    ensures AllWhite(s[..|s| - |TrimStart(s)|])
  {
    if s != [] && IsWhitespace(s[0]) {
      TrimStartSkips(s[1..]);
      var n := |s| - |TrimStart(s)|;
      assert forall i :: 1 <= i < n ==> s[..n][i] == s[1..][..n - 1][i - 1];
    }
  }

  lemma {:induction false} TrimEndSkips(s: string)
    ensures AllWhite(s[|TrimEnd(s)|..])
  {
    if s != [] && IsWhitespace(s[|s| - 1]) {
      var init := s[..|s| - 1];
      TrimEndSkips(init);
      var n := |TrimEnd(s)|;
      assert forall i :: 0 <= i < |s| - 1 - n ==> s[n..][i] == init[n..][i];
    }
  }

  lemma TrimStands(s: string)
    ensures StandsIn(s, Trim(s))
  {
    var a, t := TrimStart(s), Trim(s);
    var i := |s| - |a|;
    var j := i + |t|;
    TrimStartSkips(s);
    TrimEndSkips(a);
    assert a == s[i..] && t == a[..|t|] == s[i..j] && s[j..] == a[|t|..];
    assert StandsAt(s, t, i, j);
  }

  /** Where a trimmed text that is not empty begins. */
  lemma FirstInk(s: string, t: string, i: nat, j: nat, k: nat)
    requires StandsAt(s, t, i, j) && Trimmed(t) && t != []
    ensures k < i ==> IsWhitespace(s[k])
    ensures j <= k < |s| ==> IsWhitespace(s[k])
    ensures !IsWhitespace(s[i]) && !IsWhitespace(s[j - 1])
  {
    hide IsWhitespace;
    assert t[0] == s[i] && t[|t| - 1] == s[j - 1];
    if k < i { assert s[..i][k] == s[k]; }
    if j <= k < |s| { assert s[j..][k - j] == s[k]; }
  }

  lemma AllWhiteJoined(s: string, i: nat)
    requires i <= |s| && AllWhite(s[..i]) && AllWhite(s[i..])
    ensures AllWhite(s)
  {
    hide IsWhitespace;
    forall k | 0 <= k < |s| ensures IsWhitespace(s[k]) {
      if k < i { assert s[..i][k] == s[k]; } else { assert s[i..][k - i] == s[k]; }
    }
  }

  /** Two trimmed texts that stand in the same one are the same. */
  lemma OneStands(s: string, t: string, u: string)
    requires StandsIn(s, t) && StandsIn(s, u) && Trimmed(t) && Trimmed(u)
    ensures t == u
  {
    hide IsWhitespace, Trimmed;
    var i: nat, j: nat :| StandsAt(s, t, i, j);
    var m: nat, n: nat :| StandsAt(s, u, m, n);
    if t != [] && u != [] {
      FirstInk(s, t, i, j, m);
      FirstInk(s, t, i, j, n - 1);
      FirstInk(s, u, m, n, i);
      FirstInk(s, u, m, n, j - 1);
    } else if t != [] {
      AllWhiteJoined(s, m);
      FirstInk(s, t, i, j, i);
    } else if u != [] {
      AllWhiteJoined(s, i);
      FirstInk(s, u, m, n, m);
    }
  }

  /** Trimming is exactly this: the text that begins and ends without white space and has nothing
      but white space around it. */
  lemma TrimExactly(s: string, t: string)
    ensures t == Trim(s) <==> Trimmed(t) && StandsIn(s, t)
  {
    hide StandsIn, Trimmed;
    TrimStands(s);
    if Trimmed(t) && StandsIn(s, t) { OneStands(s, Trim(s), t); }
  }

  /** Normalising keeps the length of the trimmed text and moves its capitals to lower case. */
  lemma NormalizeExactly(raw: string, i: nat)
    requires i < |Trim(raw)|
    ensures |Normalize(raw)| == |Trim(raw)|
    ensures 'A' <= Trim(raw)[i] <= 'Z' ==> Normalize(raw)[i] as int == Trim(raw)[i] as int + 32
    ensures !('A' <= Trim(raw)[i] <= 'Z') ==> Normalize(raw)[i] == Trim(raw)[i]
  {
    hide Trim;
  }
}
