/** Decimal numerals, UTF-8, lower-case hex and the dictionary order, as the JavaScript and
    Node primitives the program builds on define them. */
module Text {
  import opened Wrappers

  type byte = b: int | 0 <= b < 256

  lemma Regroup<T>(a: seq<T>, b: seq<T>, c: seq<T>)
    ensures a + (b + c) == (a + b) + c
  {
  }

  // ------------------------------------------------------------------ decimal numerals

  function DigitChar(d: nat): char
    requires d < 10
  {
    '0' + d as char
  }

  predicate IsDigit(c: char) {
    '0' <= c <= '9'
  }

  predicate AllDigits(s: string) {
    forall i :: 0 <= i < |s| ==> IsDigit(s[i])
  }

  function DigitValue(c: char): (d: nat)
    requires IsDigit(c)
    ensures d < 10
  {
    c as int - '0' as int
  }

  /** `n.toString()` of a non-negative bigint. */
  function Numeral(n: nat): (s: string)
    ensures s != [] && AllDigits(s)
  {
    if n < 10 then [DigitChar(n)] else Numeral(n / 10) + [DigitChar(n % 10)]
  }

  /** `BigInt(s)` of a digit string (leading zeros allowed, the empty string is 0). */
  function NumeralValue(s: string): nat
    requires AllDigits(s)
  {
    if s == [] then 0 else NumeralValue(s[..|s| - 1]) * 10 + DigitValue(s[|s| - 1])
  }

  lemma {:induction false} NumeralRoundTrip(n: nat)
    ensures NumeralValue(Numeral(n)) == n
  {
    if n >= 10 {
      NumeralRoundTrip(n / 10);
      assert Numeral(n)[..|Numeral(n)| - 1] == Numeral(n / 10);
    }
  }

  lemma NumeralInjective(m: nat, n: nat)
    requires Numeral(m) == Numeral(n)
    ensures m == n
  {
    NumeralRoundTrip(m);
    NumeralRoundTrip(n);
  }

  lemma ShiftLeft(high: nat, unit: nat, low: nat)
    ensures (high * unit + low) * 10 == high * (unit * 10) + low * 10
  {
  }

  lemma {:induction false} NumeralValueConcat(s: string, t: string)
    requires AllDigits(s) && AllDigits(t)
    ensures AllDigits(s + t)
    ensures NumeralValue(s + t) == NumeralValue(s) * Pow10(|t|) + NumeralValue(t)
  {
    if t == [] {
      assert s + t == s;
    } else {
      var k := |t| - 1;
      NumeralValueConcat(s, t[..k]);
      assert (s + t)[..|s + t| - 1] == s + t[..k];
      ShiftLeft(NumeralValue(s), Pow10(k), NumeralValue(t[..k]));
    }
  }

  function Pow10(k: nat): (p: nat)
    ensures p > 0
  {
    if k == 0 then 1 else Pow10(k - 1) * 10
  }

  /** A run of `k` zero digits. */
  function Zeros(k: nat): (s: string)
    ensures |s| == k && AllDigits(s)
  {
    seq(k, _ => '0')
  }

  lemma {:induction false} ZerosAreZero(k: nat)
    ensures NumeralValue(Zeros(k)) == 0
  {
    if k > 0 {
      ZerosAreZero(k - 1);
      assert Zeros(k)[..k - 1] == Zeros(k - 1);
    }
  }

  /** A numeral below 10^k has at most k digits. */
  lemma {:induction false} NumeralLength(n: nat, k: nat)
    requires 0 < k && n < Pow10(k)
    ensures |Numeral(n)| <= k
  {
    if n >= 10 {
      assert Pow10(1) == 10;
      NumeralLength(n / 10, k - 1);
    }
  }

  // ------------------------------------------------------------------ UTF-8

  function Utf8Char(c: char): (bs: seq<byte>)
    ensures 1 <= |bs| <= 4
  {
    var n := c as int;
    if n < 0x80 then [n]
    else if n < 0x800 then [0xC0 + n / 0x40, 0x80 + n % 0x40]
    else if n < 0x10000 then [0xE0 + n / 0x1000, 0x80 + n / 0x40 % 0x40, 0x80 + n % 0x40]
    else [0xF0 + n / 0x40000, 0x80 + n / 0x1000 % 0x40, 0x80 + n / 0x40 % 0x40, 0x80 + n % 0x40]
  }

  /** `Buffer.from(s, "utf8")`. */
  function Utf8(s: string): seq<byte> {
    if s == [] then [] else Utf8Char(s[0]) + Utf8(s[1..])
  }

  /** The code point an encoding stands for, read off its bytes. */
  function Utf8CharCode(bs: seq<int>): int
    requires 1 <= |bs| <= 4
  {
    if |bs| == 1 then bs[0]
    else if |bs| == 2 then (bs[0] - 0xC0) * 0x40 + (bs[1] - 0x80)
    else if |bs| == 3 then ((bs[0] - 0xE0) * 0x40 + (bs[1] - 0x80)) * 0x40 + (bs[2] - 0x80)
    else (((bs[0] - 0xF0) * 0x40 + (bs[1] - 0x80)) * 0x40 + (bs[2] - 0x80)) * 0x40 + (bs[3] - 0x80)
  }

  lemma Utf8CharDecodes(c: char)
    ensures Utf8CharCode(Utf8Char(c)) == c as int
  {
    var n := c as int;
    assert n / 0x1000 == n / 0x40 / 0x40;
    assert n / 0x40000 == n / 0x40 / 0x40 / 0x40;
  }

  function Utf8Length(b: byte): nat {
    if b < 0x80 then 1 else if b < 0xE0 then 2 else if b < 0xF0 then 3 else 4
  }

  lemma Utf8CharLength(c: char)
    ensures |Utf8Char(c)| == Utf8Length(Utf8Char(c)[0])
  {
  }

  /** The encodings of two characters are never prefixes of one another. */
  lemma Utf8CharPrefixFree(c: char, d: char, x: seq<byte>, y: seq<byte>)
    requires Utf8Char(c) + x == Utf8Char(d) + y
    ensures c == d && x == y
  {
    var u, v, k := Utf8Char(c), Utf8Char(d), |Utf8Char(c)|;
    Utf8CharLength(c);
    Utf8CharLength(d);
    assert (u + x)[0] == u[0] && (v + y)[0] == v[0];
    assert u == (u + x)[..k] == (v + y)[..k] == v;
    assert x == (u + x)[k..] == (v + y)[k..] == y;
    Utf8CharDecodes(c);
    Utf8CharDecodes(d);
    assert c as int == d as int;
  }

  lemma {:induction false} Utf8Injective(s: string, t: string)
    requires Utf8(s) == Utf8(t)
    ensures s == t
  {
    if s != [] && t != [] {
      Utf8CharPrefixFree(s[0], t[0], Utf8(s[1..]), Utf8(t[1..]));
      Utf8Injective(s[1..], t[1..]);
      assert s == [s[0]] + s[1..] && t == [t[0]] + t[1..];
    }
  }

  // ------------------------------------------------------------------ hex

  function HexChar(d: nat): char
    requires d < 16
  {
    if d < 10 then '0' + d as char else 'a' + (d - 10) as char
  }

  predicate IsHexChar(c: char) {
    '0' <= c <= '9' || 'a' <= c <= 'f'
  }

  function HexValue(c: char): (d: nat)
    requires IsHexChar(c)
    ensures d < 16
  {
    if c <= '9' then c as int - '0' as int else c as int - 'a' as int + 10
  }

  /** `buf.toString("hex")`. */
  function Hex(bs: seq<byte>): (s: string)
    ensures |s| == 2 * |bs| && forall i :: 0 <= i < |s| ==> IsHexChar(s[i])
  {
    if bs == [] then [] else [HexChar(bs[0] / 16), HexChar(bs[0] % 16)] + Hex(bs[1..])
  }

  /** `Buffer.from(s, "hex")` of an even number of hex digits. */
  function Unhex(s: string): (bs: seq<byte>)
    requires |s| % 2 == 0 && forall i :: 0 <= i < |s| ==> IsHexChar(s[i])
    ensures |bs| == |s| / 2
  {
    if s == [] then [] else [HexValue(s[0]) * 16 + HexValue(s[1])] + Unhex(s[2..])
  }

  lemma {:induction false} UnhexHex(bs: seq<byte>)
    ensures Unhex(Hex(bs)) == bs
  {
    if bs != [] {
      UnhexHex(bs[1..]);
      assert Hex(bs)[2..] == Hex(bs[1..]);
    }
  }

  // ------------------------------------------------------------------ big-endian integers

  /** The integer whose bytes these are, most significant first. */
  function BigEndian(bs: seq<byte>): nat {
    if bs == [] then 0 else BigEndian(bs[..|bs| - 1]) * 256 + bs[|bs| - 1]
  }

  lemma Append(n: nat, b: byte)
    ensures (n * 256 + b) / 256 == n && (n * 256 + b) % 256 == b
  {
  }

  lemma BigEndianAppend(bs: seq<byte>, b: byte)
    ensures BigEndian(bs + [b]) == BigEndian(bs) * 256 + b
    ensures BigEndian(bs + [b]) / 256 == BigEndian(bs) && BigEndian(bs + [b]) % 256 == b
  {
    assert (bs + [b])[..|bs|] == bs;
    Append(BigEndian(bs), b);
  }

  // ------------------------------------------------------------------ dictionary order

  function Codes(s: string): (c: seq<int>)
    ensures |c| == |s| && forall i :: 0 <= i < |s| ==> c[i] == s[i] as int
  {
    seq(|s|, i requires 0 <= i < |s| => s[i] as int)
  }

  /** `Buffer.compare(a, b) <= 0`. */
  predicate LexLeq(a: seq<int>, b: seq<int>) {
    a == [] || (b != [] && (a[0] < b[0] || (a[0] == b[0] && LexLeq(a[1..], b[1..]))))
  }

  /** `a <= b` on strings. */
  predicate StrLeq(a: string, b: string) {
    LexLeq(Codes(a), Codes(b))
  }

  lemma {:induction false} LexTotal(a: seq<int>, b: seq<int>)
    ensures LexLeq(a, b) || LexLeq(b, a)
  {
    if a != [] && b != [] { LexTotal(a[1..], b[1..]); }
  }

  lemma {:induction false} LexAntisymmetric(a: seq<int>, b: seq<int>)
    requires LexLeq(a, b) && LexLeq(b, a)
    ensures a == b
  {
    if a != [] && b != [] {
      LexAntisymmetric(a[1..], b[1..]);
      assert a == [a[0]] + a[1..] && b == [b[0]] + b[1..];
    }
  }

  lemma {:induction false} LexTransitive(a: seq<int>, b: seq<int>, c: seq<int>)
    requires LexLeq(a, b) && LexLeq(b, c)
    ensures LexLeq(a, c)
  {
    if a != [] && a[0] == b[0] == c[0] { LexTransitive(a[1..], b[1..], c[1..]); }
  }

  lemma StrAntisymmetric(a: string, b: string)
    requires StrLeq(a, b) && StrLeq(b, a)
    ensures a == b
  {
    LexAntisymmetric(Codes(a), Codes(b));
    forall i | 0 <= i < |a| ensures a[i] == b[i] {
      assert Codes(a)[i] == Codes(b)[i];
    }
  }

  /** Sequences whose first elements differ have only the empty prefix in common. */
  lemma HeadsDiffer(a: seq<int>, b: seq<int>)
    requires a != [] && b != [] && a[0] != b[0]
    ensures forall i :: 0 < i <= |a| && i <= |b| ==> a[..i] != b[..i]
  {
    forall i | 0 < i <= |a| && i <= |b| ensures a[..i] != b[..i] { assert a[..i][0] != b[..i][0]; }
  }

  /** The order of strings and bytes: a prefix comes first, otherwise the first difference decides. */
  lemma {:induction false} LexIs(a: seq<int>, b: seq<int>)
    ensures LexLeq(a, b) <==>
      || a <= b
      || exists i :: 0 <= i < |a| && i < |b| && a[..i] == b[..i] && a[i] < b[i]
  {
    if a != [] && b != [] {
      assert a == [a[0]] + a[1..] && b == [b[0]] + b[1..];
      if a[0] < b[0] {
        assert a[..0] == b[..0];
      } else if a[0] == b[0] {
        LexIs(a[1..], b[1..]);
        if i :| 0 <= i < |a[1..]| && i < |b[1..]| && a[1..][..i] == b[1..][..i] && a[1..][i] < b[1..][i] {
          assert a[..i + 1] == [a[0]] + a[1..][..i] && b[..i + 1] == [b[0]] + b[1..][..i];
          assert a[i + 1] < b[i + 1];
        }
        if i :| 0 <= i < |a| && i < |b| && a[..i] == b[..i] && a[i] < b[i] {
          assert i > 0 && a[1..][..i - 1] == a[..i][1..] && b[1..][..i - 1] == b[..i][1..];
          assert a[1..][i - 1] < b[1..][i - 1];
        }
      } else {
        HeadsDiffer(a, b);
      }
    }
  }
}
