/** Base58 transaction signatures (apps/web/lib/chain/devnet/env.ts, `encodeSig`). */
module Base58 {
  import opened Wrappers
  import opened Text

  /** The alphabet, written in its runs of consecutive characters. */
  const B58: string := "123456789" + "ABCDEFGH" + "JKLMN" + "PQRSTUVWXYZ" + "abcdefghijk" + "mnopqrstuvwxyz"

  // ------------------------------------------------------------------ the alphabet

  predicate IsB58(c: char) {
    ('1' <= c <= '9') || ('A' <= c <= 'Z' && c != 'I' && c != 'O') || ('a' <= c <= 'z' && c != 'l')
  }

  /** The place of a character in the alphabet. */
  function B58Value(c: char): (d: nat)
    requires IsB58(c)
    ensures d < 58
  {
    var n := c as int;
    if c <= '9' then n - '1' as int
    else if c <= 'H' then n - 'A' as int + 9
    else if c <= 'N' then n - 'J' as int + 17
    else if c <= 'Z' then n - 'P' as int + 22
    else if c <= 'k' then n - 'a' as int + 33
    else n - 'm' as int + 44
  }

  function B58Char(d: nat): char
    requires d < 58
  {
    AlphabetSize();
    B58[d]
  }

  lemma AlphabetSize()
    ensures |B58| == 58
  {
  }

  /** The run a digit falls in. */
  function RunChar(d: nat): char
    requires d < 58
  {
    if d < 9 then '1' + d as char
    else if d < 17 then 'A' + (d - 9) as char
    else if d < 22 then 'J' + (d - 17) as char
    else if d < 33 then 'P' + (d - 22) as char
    else if d < 44 then 'a' + (d - 33) as char
    else 'm' + (d - 44) as char
  }

  lemma AlphabetRuns(d: nat)
    requires d < 58
    ensures B58Char(d) == RunChar(d)
  {
    AlphabetSize();
    if d < 9 { assert B58[d] == "123456789"[d]; }
    else if d < 17 { assert B58[d] == "ABCDEFGH"[d - 9]; }
    else if d < 22 { assert B58[d] == "JKLMN"[d - 17]; }
    else if d < 33 { assert B58[d] == "PQRSTUVWXYZ"[d - 22]; }
    else if d < 44 { assert B58[d] == "abcdefghijk"[d - 33]; }
    else { assert B58[d] == "mnopqrstuvwxyz"[d - 44]; }
  }

  lemma B58Place(d: nat)
    requires d < 58
    ensures IsB58(B58Char(d)) && B58Value(B58Char(d)) == d
  {
    hide B58Char;
    AlphabetRuns(d);
  }

  lemma CharAt(c: char)
    requires IsB58(c)
    ensures B58Char(B58Value(c)) == c
  {
    hide B58Char;
    AlphabetRuns(B58Value(c));
  }

  predicate AllB58(s: string) {
    forall i :: 0 <= i < |s| ==> IsB58(s[i])
  }

  // ------------------------------------------------------------------ numbers in base 58 and base 256

  /** The base-58 digits of `n`, none for 0. */
  function Digits(n: nat): string {
    if n == 0 then "" else Digits(n / 58) + [B58Char(n % 58)]
  }

  function Number(s: string): nat
    requires AllB58(s)
  {
    if s == "" then 0 else Number(s[..|s| - 1]) * 58 + B58Value(s[|s| - 1])
  }

  /** The bytes of `n`, none for 0. */
  function Bytes(n: nat): seq<byte> {
    if n == 0 then [] else Bytes(n / 256) + [n % 256]
  }

  lemma LeadingDigit(n: nat)
    requires 0 < n < 58
    ensures B58Char(n) != '1'
  {
    hide B58Char;
    AlphabetRuns(n);
  }

  lemma {:induction false} NumberOfDigits(n: nat)
    ensures AllB58(Digits(n)) && Number(Digits(n)) == n
    ensures n > 0 ==> Digits(n) != "" && Digits(n)[0] != '1'
  {
    hide B58Char, B58Value, IsB58;
    if n > 0 {
      NumberOfDigits(n / 58);
      B58Place(n % 58);
      if n < 58 { LeadingDigit(n); }
      var s := Digits(n / 58) + [B58Char(n % 58)];
      assert s[..|s| - 1] == Digits(n / 58);
    }
  }

  lemma OnlyOneIsZero(c: char)
    requires IsB58(c)
    ensures B58Value(c) == 0 <==> c == '1'
  {
  }

  lemma DivideBack(high: nat, low: nat)
    requires low < 58
    ensures (high * 58 + low) / 58 == high && (high * 58 + low) % 58 == low
  {
  }

  lemma {:induction false} DigitsOfNumber(s: string)
    requires AllB58(s) && (s == "" || s[0] != '1')
    ensures Digits(Number(s)) == s && (s != "" ==> Number(s) > 0)
  {
    hide B58Value, IsB58, B58Char;
    if s != "" {
      var k := |s| - 1;
      DigitsOfNumber(s[..k]);
      CharAt(s[k]);
      DivideBack(Number(s[..k]), B58Value(s[k]));
      OnlyOneIsZero(s[k]);
      assert s == s[..k] + [s[k]];
    }
  }

  lemma {:induction false} ValueOfBytes(n: nat)
    ensures BigEndian(Bytes(n)) == n
    ensures n > 0 ==> Bytes(n) != [] && Bytes(n)[0] != 0
  {
    if n > 0 {
      ValueOfBytes(n / 256);
      BigEndianAppend(Bytes(n / 256), n % 256);
    }
  }

  lemma {:induction false} BytesOfValue(bs: seq<byte>)
    requires bs == [] || bs[0] != 0
    ensures Bytes(BigEndian(bs)) == bs && (bs != [] ==> BigEndian(bs) > 0)
  {
    if bs != [] {
      var k := |bs| - 1;
      BytesOfValue(bs[..k]);
      assert bs == bs[..k] + [bs[k]];
      BigEndianAppend(bs[..k], bs[k]);
    }
  }

  // ------------------------------------------------------------------ leading zeros and ones

  function Leading<T(==)>(s: seq<T>, x: T): (k: nat)
    ensures k <= |s| && (forall i :: 0 <= i < k ==> s[i] == x) && (k < |s| ==> s[k] != x)
  {
    if s == [] || s[0] != x then 0 else 1 + Leading(s[1..], x)
  }

  function Repeat<T>(k: nat, x: T): (s: seq<T>)
    ensures |s| == k && forall i :: 0 <= i < k ==> s[i] == x
  {
    seq(k, _ => x)
  }

  lemma LeadingOf<T>(k: nat, x: T, rest: seq<T>)
    requires rest == [] || rest[0] != x
    ensures Leading(Repeat(k, x) + rest, x) == k
  {
    var s := Repeat(k, x) + rest;
    assert forall i :: 0 <= i < k ==> s[i] == x;
    assert k < |s| ==> s[k] == rest[0];
  }

  lemma {:induction false} ZerosAddNothing(k: nat, bs: seq<byte>)
    ensures BigEndian(Repeat(k, 0 as byte) + bs) == BigEndian(bs)
  {
    var z: seq<byte> := Repeat(k, 0 as byte);
    if bs == [] {
      assert z + bs == z;
      OnlyZeros(k);
    } else {
      var n := |bs| - 1;
      ZerosAddNothing(k, bs[..n]);
      assert z + bs == (z + bs[..n]) + [bs[n]] && bs == bs[..n] + [bs[n]];
      BigEndianAppend(z + bs[..n], bs[n]);
      BigEndianAppend(bs[..n], bs[n]);
    }
  }

  lemma {:induction false} OnlyZeros(k: nat)
    ensures BigEndian(Repeat(k, 0 as byte)) == 0
  {
    if k > 0 {
      OnlyZeros(k - 1);
      assert Repeat(k, 0 as byte) == Repeat(k - 1, 0 as byte) + [0];
      BigEndianAppend(Repeat(k - 1, 0 as byte), 0);
    }
  }

  // ------------------------------------------------------------------ encoding

  /** What `BigInt("0x" + hex)` reads. */
  function HexNumber(s: string): nat
    requires forall i :: 0 <= i < |s| ==> IsHexChar(s[i])
  {
    if s == "" then 0 else HexNumber(s[..|s| - 1]) * 16 + HexValue(s[|s| - 1])
  }

  lemma {:induction false} HexAppend(bs: seq<byte>, b: byte)
    ensures Hex(bs + [b]) == Hex(bs) + [HexChar(b / 16), HexChar(b % 16)]
  {
    if bs == [] {
      assert bs + [b] == [b] && Hex([b]) == [HexChar(b / 16), HexChar(b % 16)] + Hex([]);
    } else {
      HexAppend(bs[1..], b);
      assert (bs + [b])[1..] == bs[1..] + [b];
    }
  }

  lemma {:induction false} HexNumberIsBigEndian(bs: seq<byte>)
    ensures HexNumber(Hex(bs)) == BigEndian(bs)
  {
    if bs != [] {
      var k := |bs| - 1;
      var b := bs[k];
      HexNumberIsBigEndian(bs[..k]);
      assert bs == bs[..k] + [b];
      HexAppend(bs[..k], b);
      var h := Hex(bs);
      assert h[..|h| - 1][..|h| - 2] == Hex(bs[..k]);
    }
  }

  /** Base58 of a byte string: a '1' for each leading zero byte, then the digits of its integer. */
  function Encoded(bytes: seq<byte>): string {
    Repeat(Leading(bytes, 0), '1') + Digits(BigEndian(bytes))
  }

  /** The digit loop. */
  method DigitLoop(number: nat) returns (out: string)
    ensures out == Digits(number)
  {
    hide B58Char;
    var n := number;
    out := "";
    while n > 0
      invariant Digits(n) + out == Digits(number)
    {
      NextDigit(n, out);
      out := [B58Char(n % 58)] + out;
      n := n / 58;
    }
  }

  lemma NextDigit(n: nat, out: string)
    requires n > 0
    ensures Digits(n) + out == Digits(n / 58) + ([B58Char(n % 58)] + out)
  {
    hide B58Char;
    Regroup(Digits(n / 58), [B58Char(n % 58)], out);
  }

  /** The loop over the leading zero bytes. */
  method OnesLoop(bytes: seq<byte>, digits: string) returns (out: string)
    ensures out == Repeat(Leading(bytes, 0), '1') + digits
  {
    out := digits;
    var i := 0;
    while i < |bytes| && bytes[i] == 0
      invariant 0 <= i <= Leading(bytes, 0)
      invariant out == Repeat(i, '1') + digits
    {
      OneMore(i, digits);
      out := "1" + out;
      i := i + 1;
    }
  }

  lemma OneMore(i: nat, digits: string)
    ensures "1" + (Repeat(i, '1') + digits) == Repeat(i + 1, '1') + digits
  {
  }

  /** `encodeSig`; the empty byte string makes `BigInt("0x")` throw. */
  method EncodeSig(bytes: seq<byte>) returns (r: Result<string, ()>)
    ensures r.Ok? <==> bytes != []
    ensures r.Ok? ==> r.value == Encoded(bytes)
  {
    if bytes == [] { return Err(()); }
    hide Digits, Hex, HexNumber, BigEndian;
    HexNumberIsBigEndian(bytes);
    var out := DigitLoop(HexNumber(Hex(bytes)));
    out := OnesLoop(bytes, out);
    r := Ok(out);
  }

  /** Reading base58 back: the leading '1's are zero bytes, the rest is an integer. */
  function Decoded(s: string): Option<seq<byte>> {
    if s == "" || !AllB58(s) then None
    else
      var k := Leading(s, '1');
      Some(Repeat(k, 0 as byte) + Bytes(Number(s[k..])))
  }

  /** Every non-empty byte string comes back, length included. */
  lemma DecodeEncode(bytes: seq<byte>)
    requires bytes != []
    ensures Decoded(Encoded(bytes)) == Some(bytes)
  {
    var k, n := Leading(bytes, 0), BigEndian(bytes);
    var rest := bytes[k..];
    assert bytes == Repeat(k, 0 as byte) + rest;
    ZerosAddNothing(k, rest);
    BytesOfValue(rest);
    NumberOfDigits(n);
    LeadingOf(k, '1', Digits(n));
    var s := Encoded(bytes);
    assert s[k..] == Digits(n);
    forall i | 0 <= i < |s| ensures IsB58(s[i]) {
      if i >= k { assert s[i] == Digits(n)[i - k]; }
    }
  }

  /** And every non-empty base58 text is the encoding of what it decodes to. */
  lemma EncodeDecode(s: string)
    requires Decoded(s).Some?
    ensures Decoded(s).value != [] && Encoded(Decoded(s).value) == s
  {
    var k := Leading(s, '1');
    var rest := s[k..];
    DigitsOfNumber(rest);
    var n := Number(rest);
    ValueOfBytes(n);
    LeadingOf(k, 0 as byte, Bytes(n));
    ZerosAddNothing(k, Bytes(n));
    assert s == Repeat(k, '1') + rest;
  }

  /** So two signatures never share their text. */
  lemma EncodingInjective(a: seq<byte>, b: seq<byte>)
    requires a != [] && b != [] && Encoded(a) == Encoded(b)
    ensures a == b
  {
    DecodeEncode(a);
    DecodeEncode(b);
  }
}
