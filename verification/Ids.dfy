/** Generated identifiers: `act_{n:06}`, `apr_{n:06}`, `sel_{n:06}`, `aud_{n:06}` and the
    hexadecimal correlation id. */
module Ids {

  /** The lower-case digit for `d`. */
  function DigitChar(d: nat): (c: char)
    requires d < 16
  {
    if d < 10 then ('0' as int + d) as char else ('a' as int + (d - 10)) as char
  }

  /** Positional notation of `n`, most significant digit first and without leading zeros. */
  function Digits(n: nat, base: nat): (s: string)
    requires 2 <= base <= 16
    ensures s != []
  {
    if n < base then [DigitChar(n)] else Digits(n / base, base) + [DigitChar(n % base)]
  }

  /** The number a digit stands for; anything else counts as zero. */
  function DigitValue(c: char): (v: nat)
    ensures v < 16
  {
    if '0' <= c <= '9' then c as int - '0' as int
    else if 'a' <= c <= 'f' then c as int - 'a' as int + 10
    else 0
  }

  function Decode(s: string, base: nat): nat {
    if s == [] then 0 else Decode(s[..|s| - 1], base) * base + DigitValue(s[|s| - 1])
  }

  lemma DigitRoundTrip(d: nat)
    requires d < 16
    ensures DigitValue(DigitChar(d)) == d
    ensures '0' <= DigitChar(d) <= '9' || 'a' <= DigitChar(d) <= 'f'
  {
  }

  lemma DecodeSnoc(s: string, c: char, base: nat)
    ensures Decode(s + [c], base) == Decode(s, base) * base + DigitValue(c)
  {
    assert (s + [c])[..|s|] == s;
  }

  lemma QuotientRemainder(n: nat, base: nat)
    requires base > 0
    ensures (n / base) * base + n % base == n
  {
  }

  lemma DecodeOne(c: char, base: nat)
    ensures Decode([c], base) == DigitValue(c)
  {
    assert [c][..0] == [];
    assert Decode([], base) * base == 0;
  }

  /** One more digit on the right. */
  lemma DigitsStep(n: nat, base: nat)
    requires 2 <= base <= 16 && n >= base
    requires Decode(Digits(n / base, base), base) == n / base
    ensures Decode(Digits(n, base), base) == n
  {
    var q, r := n / base, n % base;
    DigitRoundTrip(r);
    DecodeSnoc(Digits(q, base), DigitChar(r), base);
    QuotientRemainder(n, base);
  }

  lemma {:induction false} DigitsDecode(n: nat, base: nat)
    requires 2 <= base <= 16
    ensures Decode(Digits(n, base), base) == n
  {
    if n < base {
      DigitRoundTrip(n);
      DecodeOne(DigitChar(n), base);
    } else {
      DigitsDecode(n / base, base);
      DigitsStep(n, base);
    }
  }

  predicate IsHex(s: string) {
    forall i :: 0 <= i < |s| ==> '0' <= s[i] <= '9' || 'a' <= s[i] <= 'f'
  }

  lemma {:induction false} DigitsAreHex(n: nat, base: nat)
    requires 2 <= base <= 16
    ensures IsHex(Digits(n, base))
  {
    if n < base {
      DigitRoundTrip(n);
    } else {
      DigitsAreHex(n / base, base);
      DigitRoundTrip(n % base);
    }
  }

  function Power(base: nat, e: nat): nat {
    if e == 0 then 1 else base * Power(base, e - 1)
  }

  lemma QuotientBelow(n: nat, base: nat, p: nat)
    requires base > 0 && n < base * p
    ensures n / base < p
  {
    QuotientRemainder(n, base);
    if n / base >= p { MultiplyBoth(base, p, n / base); }
  }

  lemma MultiplyBoth(base: nat, p: nat, q: nat)
    requires p <= q
    ensures base * p <= q * base
  {
    assert q * base == base * p + base * (q - p);
  }

  lemma PowerStep(base: nat, w: nat)
    requires w >= 1
    ensures Power(base, w) == base * Power(base, w - 1)
    ensures Power(base, 0) == 1
  {
  }

  /** A number below `base^w` takes at most `w` digits. */
  lemma {:induction false} DigitsWidth(n: nat, base: nat, w: nat)
    requires 2 <= base <= 16 && 1 <= w && n < Power(base, w)
    ensures |Digits(n, base)| <= w
  {
    hide DigitChar, Power;
    if n >= base {
      PowerStep(base, w);
      QuotientBelow(n, base, Power(base, w - 1));
      if w > 1 { DigitsWidth(n / base, base, w - 1); }
    }
  }

  function Zeros(k: nat): (s: string)
    ensures |s| == k && forall i :: 0 <= i < k ==> s[i] == '0'
  {
    seq(k, _ => '0')
  }

  /** `format!("{n:0w}")` and `format!("{n:0wx}")`: pad with zeros up to `w`, never cut. */
  function Padded(n: nat, base: nat, w: nat): (s: string)
    requires 2 <= base <= 16
    ensures |s| >= w
  {
    var d := Digits(n, base);
    if |d| >= w then d else Zeros(w - |d|) + d
  }

  lemma {:induction false} LeadingZeros(k: nat, s: string, base: nat)
    ensures Decode(Zeros(k) + s, base) == Decode(s, base)
    decreases |s|, k
  {
    var z := Zeros(k) + s;
    if s == [] {
      if k > 0 {
        assert z[..|z| - 1] == Zeros(k - 1) + [];
        LeadingZeros(k - 1, [], base);
      } else {
        assert z == [];
      }
    } else {
      assert z[..|z| - 1] == Zeros(k) + s[..|s| - 1];
      LeadingZeros(k, s[..|s| - 1], base);
    }
  }

  /** A padded number decodes to the counter it was made from, whatever its length. */
  lemma PaddedDecodes(n: nat, base: nat, w: nat)
    requires 2 <= base <= 16
    ensures Decode(Padded(n, base, w), base) == n
    ensures IsHex(Padded(n, base, w))
  {
    DigitsDecode(n, base);
    DigitsAreHex(n, base);
    var d := Digits(n, base);
    if |d| < w { LeadingZeros(w - |d|, d, base); }
  }

  /** Zeros in front up to the width, then the number without leading zeros. */
  lemma PaddedShape(n: nat, base: nat, w: nat)
    requires 2 <= base <= 16
    ensures var d, s := Digits(n, base), Padded(n, base, w);
      && |s| == (if |d| < w then w else |d|)
      && s[|s| - |d|..] == d && (forall i :: 0 <= i < |s| - |d| ==> s[i] == '0')
    ensures n > 0 ==> Digits(n, base)[0] != '0'
  {
    hide DigitChar;
    NoLeadingZero(n, base);
  }

  lemma {:induction false} NoLeadingZero(n: nat, base: nat)
    requires 2 <= base <= 16
    ensures n > 0 ==> Digits(n, base)[0] != '0'
  {
    if n < base {
      if n > 0 { assert DigitValue(DigitChar(n)) == n != DigitValue('0'); }
    } else {
      hide DigitChar;
      QuotientRemainder(n, base);
      assert n / base > 0;
      NoLeadingZero(n / base, base);
    }
  }

  /** Counter value `n` (already incremented) in the `act_`/`apr_`/`sel_`/`aud_` form. */
  function CounterId(prefix: string, n: nat): (s: string)
    ensures |s| >= |prefix| + 6 && s[..|prefix|] == prefix
  {
    prefix + Padded(n, 10, 6)
  }

  function ApprovalId(n: nat): string { CounterId("apr_", n) }

  /** Prefix and number of an identifier, the number six digits wide up to 999999. */
  lemma CounterForm(prefix: string, n: nat)
    ensures var id := CounterId(prefix, n);
      && id[..|prefix|] == prefix && Decode(id[|prefix|..], 10) == n
      && (n < 1_000_000 ==> |id| == |prefix| + 6)
  {
    hide Padded;
    var id := CounterId(prefix, n);
    assert id[|prefix|..] == Padded(n, 10, 6);
    PaddedDecodes(n, 10, 6);
    if n < 1_000_000 { SixDigits(n); }
  }

  lemma SixDigits(n: nat)
    requires n < 1_000_000
    ensures |Padded(n, 10, 6)| == 6
  {
    hide Digits;
    assert Power(10, 6) == 1_000_000 by { assert Power(10, 3) == 1_000; }
    DigitsWidth(n, 10, 6);
  }

  /** Equal identifiers of one family come from equal counter values. */
  lemma CounterIdInjective(prefix: string, m: nat, n: nat)
    requires CounterId(prefix, m) == CounterId(prefix, n)
    ensures m == n
  {
    assert CounterId(prefix, m)[|prefix|..] == Padded(m, 10, 6);
    assert CounterId(prefix, n)[|prefix|..] == Padded(n, 10, 6);
    PaddedDecodes(m, 10, 6);
    PaddedDecodes(n, 10, 6);
  }

  const CORRELATION_PREFIX: string := "corr_"

  /** `format!("{CORRELATION_ID_PREFIX}{ts:012x}{n:016x}")` */
  function CorrelationId(ts: nat, n: nat): string {
    CORRELATION_PREFIX + Padded(ts, 16, 12) + Padded(n, 16, 16)
  }

  /** The three parts of a correlation id: prefix, clock and counter, each in its own digits. */
  lemma CorrelationForm(ts: nat, n: nat)
    requires ts < 0x1_0000_0000_0000 && n < 0x1_0000_0000_0000_0000
    ensures var c := CorrelationId(ts, n);
      && |c| == 33 && c[..5] == "corr_" && Decode(c[5..17], 16) == ts && Decode(c[17..], 16) == n
  {
    ClockWidth(ts);
    HexWidth64(n);
    var c := CorrelationId(ts, n);
    assert c[5..17] == Padded(ts, 16, 12) && c[17..] == Padded(n, 16, 16);
    PaddedDecodes(ts, 16, 12);
    PaddedDecodes(n, 16, 16);
  }

  lemma ClockWidth(ts: nat)
    requires ts < 0x1_0000_0000_0000
    ensures |Padded(ts, 16, 12)| == 12
  {
    assert Power(16, 12) == 0x1_0000_0000_0000 by {
      assert Power(16, 4) == 0x1_0000;
      assert Power(16, 8) == 0x1_0000_0000;
    }
    DigitsWidth(ts, 16, 12);
  }

  lemma HexWidth64(n: nat)
    requires n < 0x1_0000_0000_0000_0000
    ensures |Digits(n, 16)| <= 16 && |Padded(n, 16, 16)| == 16 && |Padded(n, 16, 12)| <= 16
  {
    assert Power(16, 16) == 0x1_0000_0000_0000_0000 by {
      assert Power(16, 4) == 0x1_0000;
      assert Power(16, 8) == 0x1_0000_0000;
      assert Power(16, 12) == 0x1_0000_0000_0000;
    }
    DigitsWidth(n, 16, 16);
  }

  /** The counter half of a correlation id is exactly its last 16 characters. */
  lemma CorrelationTail(ts: nat, n: nat)
    requires n < 0x1_0000_0000_0000_0000
    ensures |Padded(n, 16, 16)| == 16
    ensures var c := CorrelationId(ts, n); |c| >= 33 && Decode(c[|c| - 16..], 16) == n
  {
    HexWidth64(n);
    var c := CorrelationId(ts, n);
    assert c[|c| - 16..] == Padded(n, 16, 16);
    PaddedDecodes(n, 16, 16);
  }

  /** Correlation ids are unique whatever the clock does: two equal ids carry equal counters. */
  lemma CorrelationIdInjective(ts: nat, n: nat, ts': nat, n': nat)
    requires n < 0x1_0000_0000_0000_0000 && n' < 0x1_0000_0000_0000_0000
    requires CorrelationId(ts, n) == CorrelationId(ts', n')
    ensures n == n'
  {
    CorrelationTail(ts, n);
    CorrelationTail(ts', n');
  }
}
