/** The few pieces of Go string formatting the model relies on: `%d`,
    `%03d`, `%v` of a string slice, the byte length `len(s)` of a Go
    string (UTF-8) and the path joining `filepath.Join` performs on clean
    components. */
module Text {

  predicate IsDigit(c: char) {
    '0' <= c <= '9'
  }

  predicate AllDigits(s: string) {
    forall i :: 0 <= i < |s| ==> IsDigit(s[i])
  }

  /** `s` ends with `suffix`. (Prefixes are Dafny's `<=` on sequences.) */
  predicate EndsWith(s: string, suffix: string) {
    |suffix| <= |s| && s[|s| - |suffix|..] == suffix
  }

  function DigitChar(d: nat): (c: char)
    requires d < 10
    ensures IsDigit(c) && c as int - '0' as int == d
  {
    ('0' as int + d) as char
  }

  /** Decimal digits of `n`, most significant first, without leading zeros. */
  function NatToDecimal(n: nat): (s: string)
    ensures 1 <= |s|
    ensures AllDigits(s)
    ensures s[0] == '0' ==> n == 0
    decreases n
  {
    if n < 10 then [DigitChar(n)] else NatToDecimal(n / 10) + [DigitChar(n % 10)]
  }

  /** The value of a run of decimal digits; leading zeros are allowed. */
  function DecimalValue(s: string): nat
    requires AllDigits(s)
  {
    if |s| == 0 then 0 else 10 * DecimalValue(s[..|s| - 1]) + (s[|s| - 1] as int - '0' as int)
  }

  /** Reading the rendered digits back gives the number. */
  lemma {:induction false} DecimalRoundTrip(n: nat)
    ensures DecimalValue(NatToDecimal(n)) == n
  {
    if n >= 10 {
      var s := NatToDecimal(n);
      assert s[..|s| - 1] == NatToDecimal(n / 10);
      DecimalRoundTrip(n / 10);
    }
  }

  /** Go's `%d` of an `int`. */
  function IntToDecimal(i: int): (s: string)
    ensures 1 <= |s|
    ensures i >= 0 ==> AllDigits(s) && DecimalValue(s) == i
    ensures i < 0 ==> |s| >= 2 && s[0] == '-' && AllDigits(s[1..]) && DecimalValue(s[1..]) == -i
  {
    DecimalRoundTrip(if i >= 0 then i else -i);
    if i >= 0 then NatToDecimal(i) else "-" + NatToDecimal(-i)
  }

  function Zeros(k: nat): (s: string)
    ensures |s| == k && AllDigits(s)
    ensures forall j :: 0 <= j < k ==> s[j] == '0'
  {
    if k == 0 then "" else "0" + Zeros(k - 1)
  }

  lemma {:induction false} ZerosValue(k: nat)
    ensures DecimalValue(Zeros(k)) == 0
  {
    if k > 0 {
      assert Zeros(k)[..k - 1] == Zeros(k - 1);
      ZerosValue(k - 1);
    }
  }

  /** Leading zeros do not change the value of a digit run. */
  lemma {:induction false} LeadingZerosValue(k: nat, s: string)
    requires AllDigits(s)
    ensures AllDigits(Zeros(k) + s)
    ensures DecimalValue(Zeros(k) + s) == DecimalValue(s)
    decreases |s|
  {
    var z := Zeros(k) + s;
    assert AllDigits(z);
    if |s| == 0 {
      assert z == Zeros(k);
      ZerosValue(k);
    } else {
      assert z[..|z| - 1] == Zeros(k) + s[..|s| - 1];
      LeadingZerosValue(k, s[..|s| - 1]);
    }
  }

  /** Go's `%03d`: at least three characters, zero-padded after the sign,
      the sign counting towards the width. */
  function PadZero3(i: int): (s: string)
    ensures 3 <= |s|
    ensures 0 <= i ==> AllDigits(s) && DecimalValue(s) == i
    ensures 0 <= i < 1000 ==> |s| == 3
    ensures i < 0 ==> s[0] == '-' && AllDigits(s[1..]) && DecimalValue(s[1..]) == -i
  {
    var digits := NatToDecimal(if i >= 0 then i else -i);
    DecimalRoundTrip(if i >= 0 then i else -i);
    if i >= 0 then
      var pad := if |digits| < 3 then 3 - |digits| else 0;
      LeadingZerosValue(pad, digits);
      assert i < 1000 ==> |digits| <= 3 by {
        if i < 1000 && |digits| > 3 { DigitsBound(i); }
      }
      Zeros(pad) + digits
    else
      var pad := if |digits| < 2 then 2 - |digits| else 0;
      LeadingZerosValue(pad, digits);
      var s := "-" + Zeros(pad) + digits;
      assert s[1..] == Zeros(pad) + digits;
      s
  }

  /** A number below 10^k has at most k digits; stated for k = 3. */
  lemma DigitsBound(n: nat)
    requires n < 1000
    ensures |NatToDecimal(n)| <= 3
  {
    if n >= 10 {
      var m := n / 10;
      assert m < 100;
      if m >= 10 {
        assert m / 10 < 10;
        assert |NatToDecimal(m / 10)| == 1;
        assert |NatToDecimal(m)| == 2;
      }
    }
  }

  /** Bytes taken by one Unicode scalar value in UTF-8. */
  function Utf8Width(c: char): nat {
    if c as int < 0x80 then 1
    else if c as int < 0x800 then 2
    else if c as int < 0x10000 then 3
    else 4
  }

  /** Go's `len(s)` of a string: its length in UTF-8 bytes. (`len([]rune(s))`
      is `|s|`.) */
  function Utf8Length(s: string): (n: nat)
    ensures |s| <= n <= 4 * |s|
    ensures n == 0 <==> |s| == 0
  {
    if |s| == 0 then 0 else Utf8Length(s[..|s| - 1]) + Utf8Width(s[|s| - 1])
  }

  /** Pure ASCII text has as many bytes as characters. */
  lemma {:induction false} AsciiUtf8Length(s: string)
    requires forall i :: 0 <= i < |s| ==> s[i] as int < 0x80
    ensures Utf8Length(s) == |s|
  {
    if |s| > 0 {
      AsciiUtf8Length(s[..|s| - 1]);
    }
  }

  /** Go's `strings.Join`. */
  function Join(parts: seq<string>, sep: string): string {
    if |parts| == 0 then ""
    else if |parts| == 1 then parts[0]
    else parts[0] + sep + Join(parts[1..], sep)
  }

  /** Go's `%v` of a `[]string`: the elements separated by spaces, in brackets. */
  function FormatStrings(parts: seq<string>): (s: string)
    ensures "[" <= s && EndsWith(s, "]")
  {
    "[" + Join(parts, " ") + "]"
  }

  /** `filepath.Join(dir, name)` for a clean directory and a single element. */
  function PathJoin(dir: string, name: string): string {
    dir + "/" + name
  }

  lemma PrefixOfConcat(a: string, b: string)
    ensures a <= a + b
  {
    assert (a + b)[..|a|] == a;
  }

  lemma SuffixOfConcat(a: string, b: string)
    ensures EndsWith(a + b, b)
  {
    assert (a + b)[|a|..] == b;
  }

  /** `h + m + f` starts with `h`, ends with `f` and has `m` in between. */
  lemma Enclosed(h: string, m: string, f: string)
    ensures |h + m + f| == |h| + |m| + |f|
    ensures h <= h + m + f
    ensures EndsWith(h + m + f, f)
    ensures (h + m + f)[|h|..|h + m + f| - |f|] == m
  {
    PrefixOfConcat(h, m + f);
    assert h + m + f == h + (m + f);
    SuffixOfConcat(h + m, f);
  }

  /** The concatenation of `parts`, in order. */
  function Flatten(parts: seq<string>): string
    decreases |parts|
  {
    if |parts| == 0 then "" else parts[0] + Flatten(parts[1..])
  }

  lemma {:induction false} FlattenAppend(x: seq<string>, y: seq<string>)
    ensures Flatten(x + y) == Flatten(x) + Flatten(y)
    decreases |x|
  {
    if |x| == 0 {
      assert x + y == y;
    } else {
      assert (x + y)[0] == x[0];
      assert (x + y)[1..] == x[1..] + y;
      FlattenAppend(x[1..], y);
    }
  }
}
