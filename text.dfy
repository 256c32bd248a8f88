/** What Rust's `format!("{}", n)` and `join` produce for the values the
    displays print, with the parsers that read them back. */
module Text {

  import opened Base

  predicate IsDigit(c: char) {
    '0' <= c <= '9'
  }

  predicate AllDigits(s: string) {
    forall i :: 0 <= i < |s| ==> IsDigit(s[i])
  }

  function DigitChar(d: nat): (c: char)
    requires d < 10
    ensures IsDigit(c) && c as int - '0' as int == d
  {
    ('0' as int + d) as char
  }

  /** Decimal rendering of a natural number, without leading zeros. */
  function NatToString(n: nat): (s: string)
    ensures 1 <= |s| && AllDigits(s)
    ensures |s| > 1 ==> s[0] != '0'
    decreases n
  {
    if n < 10 then [DigitChar(n)] else NatToString(n / 10) + [DigitChar(n % 10)]
  }

  /** Reads a string of decimal digits back as a number. */
  function ParseNat(s: string): nat
    requires AllDigits(s)
  {
    if s == [] then 0
    else ParseNat(s[..|s| - 1]) * 10 + (s[|s| - 1] as int - '0' as int)
  }

  lemma {:induction false} ParseNatToString(n: nat)
    ensures ParseNat(NatToString(n)) == n
    decreases n
  {
    var s := NatToString(n);
    if n >= 10 {
      ParseNatToString(n / 10);
      assert s[..|s| - 1] == NatToString(n / 10);
    }
  }

  /** `parts.join(sep)`. */
  function Join(parts: seq<string>, sep: string): string {
    if |parts| == 0 then ""
    else if |parts| == 1 then parts[0]
    else parts[0] + sep + Join(parts[1..], sep)
  }

  /** Every joined text begins with the first part. */
  lemma {:induction false} JoinStartsWithFirst(parts: seq<string>, sep: string)
    requires |parts| >= 1
    ensures |Join(parts, sep)| >= |parts[0]|
    ensures Join(parts, sep)[..|parts[0]|] == parts[0]
  {
    if |parts| > 1 {
      var rest := Join(parts[1..], sep);
      assert Join(parts, sep) == parts[0] + (sep + rest);
    }
  }

  /** Index of the first occurrence of `c` in `s`, or `|s|` when there is none. */
  function IndexOf(s: string, c: char): (k: nat)
    ensures k <= |s|
    ensures k < |s| ==> s[k] == c
    ensures forall j :: 0 <= j < k ==> s[j] != c
  {
    if s == [] then 0
    else if s[0] == c then 0
    else 1 + IndexOf(s[1..], c)
  }

  /** Index of the last occurrence of `c` in `s`, or -1 when there is none. */
  function LastIndexOf(s: string, c: char): (k: int)
    ensures -1 <= k < |s|
    ensures k >= 0 ==> s[k] == c
    ensures forall j :: k < j < |s| ==> s[j] != c
  {
    if s == [] then -1
    else if s[|s| - 1] == c then |s| - 1
    else LastIndexOf(s[..|s| - 1], c)
  }

  /** Reads a counter written as `"<a>/<b>"`. */
  function ParseCounter(s: string): Option<(nat, nat)> {
    var k := IndexOf(s, '/');
    if k < |s| && AllDigits(s[..k]) && AllDigits(s[k + 1..])
    then Some((ParseNat(s[..k]), ParseNat(s[k + 1..])))
    else None
  }

  /** The counter text written by `CounterText` reads back as the same two numbers. */
  lemma CounterRoundTrip(a: nat, b: nat)
    ensures ParseCounter(CounterText(a, b)) == Some((a, b))
  {
    var left, right := NatToString(a), NatToString(b);
    var s := CounterText(a, b);
    assert s == left + "/" + right;
    assert forall j :: 0 <= j < |left| ==> s[j] == left[j] && s[j] != '/';
    assert s[|left|] == '/';
    assert IndexOf(s, '/') == |left|;
    assert s[..|left|] == left;
    assert s[|left| + 1..] == right;
    ParseNatToString(a);
    ParseNatToString(b);
  }

  /** `"{}/{}"` of two counters. */
  function CounterText(a: nat, b: nat): string {
    NatToString(a) + "/" + NatToString(b)
  }
}
