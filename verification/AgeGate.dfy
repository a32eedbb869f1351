/** Passport dates and the age gate of the on-chain program (kyc.rs), and the bound its client
    computes (apps/web/lib/chain/devnet/kyc.ts). */
module AgeGate {
  import opened Wrappers
  import opened Text
  import opened Civil

  /** A (year, month, day) triple as the program compares it; only the digits are checked. */
  type Triple = Date

  // ------------------------------------------------------------------ YYMMDD

  /** Two digits of a passport date as ASCII. */
  function Ascii2(n: int): seq<byte>
    requires 0 <= n < 100
  {
    [48 + n / 10, 48 + n % 10]
  }

  /** `encode_yymmdd`, for dates whose month and day have two digits. */
  function EncodeYymmdd(x: Triple): nat
    requires 0 <= x.m < 100 && 0 <= x.d < 100
  {
    BigEndian(DateDigits(x))
  }

  /** The code of the day `days` after the one of `ts`. */
  ghost function DateCode(ts: int, days: int): nat {
    EncodeYymmdd(DateAt(ts + days * SECONDS_PER_DAY))
  }

  /** `encoded_date` */
  function EncodedDate(ts: int, days: int): (code: nat)
    ensures code == DateCode(ts, days)
  {
    EncodeYymmdd(CivilFromUnix(ts + days * SECONDS_PER_DAY))
  }

  /** `v >> (8 * k)`. */
  function ShiftRight(v: nat, k: nat): nat {
    if k == 0 then v else ShiftRight(v / 256, k - 1)
  }

  /** `(v >> (8 * (5 - i))) & 0xff`. */
  function ByteAt(v: nat, i: nat): byte
    requires i < 6
  {
    ShiftRight(v, 5 - i) % 256
  }

  predicate IsAsciiDigit(b: byte) {
    48 <= b <= 57
  }

  /** All six bytes are digits and nothing stands above them. */
  predicate Decodes(v: nat) {
    v < 0x1_0000_0000_0000 && forall i :: 0 <= i < 6 ==> IsAsciiDigit(ByteAt(v, i))
  }

  function Pair(v: nat, i: nat): int
    requires i < 5 && Decodes(v)
  {
    10 * (ByteAt(v, i) - 48 as int) + (ByteAt(v, i + 1) - 48 as int)
  }

  /** `decode_yymmdd`. */
  function DecodeYymmdd(v: nat): Option<(int, int, int)> {
    if Decodes(v) then Some((Pair(v, 0), Pair(v, 2), Pair(v, 4))) else None
  }

  /** `decode_yymmdd` in the program's own form: a digit array filled byte by byte. */
  method FillDigits(v: nat) returns (r: Option<(int, int, int)>)
    ensures r == DecodeYymmdd(v)
  {
    if v / 0x1_0000_0000_0000 != 0 {
      return None;
    }
    var dg := new int[6];
    for i := 0 to 6
      invariant forall k :: 0 <= k < i ==> IsAsciiDigit(ByteAt(v, k)) && dg[k] == ByteAt(v, k) - 48
    {
      var b := ByteAt(v, i);
      if !IsAsciiDigit(b) {
        return None;
      }
      dg[i] := b - 48;
    }
    r := Some((dg[0] * 10 + dg[1], dg[2] * 10 + dg[3], dg[4] * 10 + dg[5]));
  }

  /** Shifting a big-endian integer drops its last bytes. */
  lemma {:induction false} ShiftDrops(bs: seq<byte>, k: nat)
    requires k <= |bs|
    ensures ShiftRight(BigEndian(bs), k) == BigEndian(bs[..|bs| - k])
  {
    if k == 0 {
      assert bs[..|bs|] == bs;
    } else {
      var n := |bs| - 1;
      assert bs == bs[..n] + [bs[n]];
      BigEndianAppend(bs[..n], bs[n]);
      ShiftDrops(bs[..n], k - 1);
      assert bs[..n][..n - (k - 1)] == bs[..|bs| - k];
    }
  }

  lemma ByteRecovered(bs: seq<byte>, i: nat)
    requires |bs| == 6 && i < 6
    ensures ByteAt(BigEndian(bs), i) == bs[i]
  {
    ShiftDrops(bs, 5 - i);
    assert bs[..i + 1] == bs[..i] + [bs[i]];
    BigEndianAppend(bs[..i], bs[i]);
  }

  lemma {:induction false} BigEndianBound(bs: seq<byte>)
    requires |bs| == 6
    ensures BigEndian(bs) < 0x1_0000_0000_0000
  {
    assert bs == [bs[0], bs[1], bs[2], bs[3], bs[4]] + [bs[5]];
    SixValue(bs[0], bs[1], bs[2], bs[3], bs[4], bs[5]);
    assert bs == [bs[0], bs[1], bs[2], bs[3], bs[4], bs[5]];
  }

  lemma SixValue(a: byte, b: byte, c: byte, d: byte, e: byte, f: byte)
    ensures BigEndian([a, b, c, d, e, f]) == ((a * 256 + b) * 65536 + (c * 256 + d)) * 65536 + (e * 256 + f)
  {
    assert [a, b, c, d, e, f] == [a, b, c, d, e] + [f] && [a, b, c, d, e] == [a, b, c, d] + [e];
    assert [a, b, c, d] == [a, b, c] + [d] && [a, b, c] == [a, b] + [c] && [a, b] == [a] + [b];
    BigEndianAppend([a, b, c, d, e], f);
    BigEndianAppend([a, b, c, d], e);
    BigEndianAppend([a, b, c], d);
    BigEndianAppend([a, b], c);
    BigEndianAppend([a], b);
    assert [a][..0] == [] && BigEndian([a]) == a;
  }

  /** The six ASCII digits of a date. */
  function DateDigits(x: Triple): (bs: seq<byte>)
    requires 0 <= x.m < 100 && 0 <= x.d < 100
    ensures |bs| == 6
  {
    Ascii2(x.y % 100) + Ascii2(x.m) + Ascii2(x.d)
  }

  /** Decoding undoes encoding, up to the century. */
  lemma DecodeEncode(x: Triple)
    requires 0 <= x.m < 100 && 0 <= x.d < 100
    ensures DecodeYymmdd(EncodeYymmdd(x)) == Some((x.y % 100, x.m, x.d))
  {
    var bs := DateDigits(x);
    var v := BigEndian(bs);
    BigEndianBound(bs);
    forall i | 0 <= i < 6 ensures ByteAt(v, i) == bs[i] { ByteRecovered(bs, i); }
    assert Decodes(v);
    assert Pair(v, 0) == x.y % 100 && Pair(v, 2) == x.m && Pair(v, 4) == x.d;
  }

  function Weight(n: int): int
    requires 0 <= n < 100
  {
    (48 + n / 10) * 256 + (48 + n % 10)
  }

  lemma TwoDigits(m: int, n: int)
    requires 0 <= m < 100 && 0 <= n < 100
    ensures m < n <==> Weight(m) < Weight(n)
    ensures m == n <==> Weight(m) == Weight(n)
    ensures 0 <= Weight(m) < 65536
  {
  }

  lemma EncodingValue(x: Triple)
    requires 0 <= x.m < 100 && 0 <= x.d < 100
    ensures EncodeYymmdd(x) == (Weight(x.y % 100) * 65536 + Weight(x.m)) * 65536 + Weight(x.d)
  {
    var yy := x.y % 100;
    assert DateDigits(x) == [48 + yy / 10, 48 + yy % 10, 48 + x.m / 10, 48 + x.m % 10, 48 + x.d / 10, 48 + x.d % 10];
    SixValue(48 + yy / 10, 48 + yy % 10, 48 + x.m / 10, 48 + x.m % 10, 48 + x.d / 10, 48 + x.d % 10);
  }

  lemma Lexicographic(a: int, b: int, c: int, a': int, b': int, c': int)
    requires 0 <= b < 65536 && 0 <= c < 65536 && 0 <= b' < 65536 && 0 <= c' < 65536
    ensures (a * 65536 + b) * 65536 + c < (a' * 65536 + b') * 65536 + c'
       <==> a < a' || (a == a' && (b < b' || (b == b' && c < c')))
  {
  }

  /** As numbers, encoded dates order as (yy, mm, dd) does. */
  lemma EncodingOrders(a: Triple, b: Triple)
    requires 0 <= a.m < 100 && 0 <= a.d < 100 && 0 <= b.m < 100 && 0 <= b.d < 100
    ensures EncodeYymmdd(a) < EncodeYymmdd(b) <==> Before(Date(a.y % 100, a.m, a.d), Date(b.y % 100, b.m, b.d))
  {
    EncodingValue(a);
    EncodingValue(b);
    TwoDigits(a.y % 100, b.y % 100);
    TwoDigits(b.y % 100, a.y % 100);
    TwoDigits(a.m, b.m);
    TwoDigits(b.m, a.m);
    TwoDigits(a.d, b.d);
    TwoDigits(b.d, a.d);
    Lexicographic(Weight(a.y % 100), Weight(a.m), Weight(a.d), Weight(b.y % 100), Weight(b.m), Weight(b.d));
  }

  // ------------------------------------------------------------------ the gate

  /** `normalize_yymmdd`: below the current date is 20xx, otherwise 19xx. */
  function NormalizeYymmdd(encoded: nat, current: nat): Option<Triple> {
    match DecodeYymmdd(encoded)
    case None => None
    case Some((yy, m, d)) => Some(Date((if encoded < current then 2000 else 1900) + yy, m, d))
  }

  /** The code's digits are those of the date. */
  predicate Reads(v: nat, x: Triple) {
    DecodeYymmdd(v) == Some((x.y % 100, x.m, x.d))
  }

  lemma TopByte(v: nat, k: nat)
    ensures ShiftRight(v, k + 1) * 256 + ShiftRight(v, k) % 256 == ShiftRight(v, k)
  {
    ShiftOnce(v, k);
    var u := ShiftRight(v, k);
    assert u == u / 256 * 256 + u % 256;
  }

  lemma {:induction false} ShiftOnce(v: nat, k: nat)
    ensures ShiftRight(v, k + 1) == ShiftRight(v, k) / 256
  {
    if k > 0 { ShiftOnce(v / 256, k - 1); }
  }

  /** Six bytes are all there is to a number below 2^48. */
  lemma SixBytes(v: nat)
    requires v < 0x1_0000_0000_0000
    ensures v == BigEndian([ByteAt(v, 0), ByteAt(v, 1), ByteAt(v, 2), ByteAt(v, 3), ByteAt(v, 4), ByteAt(v, 5)])
  {
    hide ShiftRight;
    SixValue(ByteAt(v, 0), ByteAt(v, 1), ByteAt(v, 2), ByteAt(v, 3), ByteAt(v, 4), ByteAt(v, 5));
    TopByte(v, 0);
    TopByte(v, 1);
    TopByte(v, 2);
    TopByte(v, 3);
    TopByte(v, 4);
    TopByte(v, 5);
    assert ShiftRight(v, 0) == v by { NoShift(v); }
    SixShifts(ShiftRight(v, 0), ShiftRight(v, 1), ShiftRight(v, 2), ShiftRight(v, 3), ShiftRight(v, 4),
              ShiftRight(v, 5), ShiftRight(v, 6));
  }

  lemma NoShift(v: nat)
    ensures ShiftRight(v, 0) == v
  {
  }

  lemma SixShifts(a: nat, b: nat, c: nat, d: nat, e: nat, f: nat, g: nat)
    requires a < 0x1_0000_0000_0000
    requires b * 256 <= a && c * 256 <= b && d * 256 <= c && e * 256 <= d && f * 256 <= e && g * 256 <= f
    ensures g == 0
  {
  }

  lemma TwoAscii(b: byte, c: byte)
    requires IsAsciiDigit(b) && IsAsciiDigit(c)
    ensures var n := 10 * (b - 48 as int) + (c - 48 as int); 0 <= n < 100 && Ascii2(n) == [b, c]
  {
  }

  /** Encoding undoes decoding. */
  lemma EncodeDecode(v: nat)
    requires DecodeYymmdd(v).Some?
    ensures var (yy, m, d) := DecodeYymmdd(v).value;
      0 <= yy < 100 && 0 <= m < 100 && 0 <= d < 100 && EncodeYymmdd(Date(yy, m, d)) == v
  {
    hide BigEndian, ShiftRight, ByteAt, Ascii2, IsAsciiDigit;
    SixBytes(v);
    TwoAscii(ByteAt(v, 0), ByteAt(v, 1));
    TwoAscii(ByteAt(v, 2), ByteAt(v, 3));
    TwoAscii(ByteAt(v, 4), ByteAt(v, 5));
    var (yy, m, d) := DecodeYymmdd(v).value;
    assert yy % 100 == yy;
    assert Ascii2(yy) + Ascii2(m) + Ascii2(d)
        == [ByteAt(v, 0), ByteAt(v, 1), ByteAt(v, 2), ByteAt(v, 3), ByteAt(v, 4), ByteAt(v, 5)];
  }

  /** A code reads as a date exactly if it is the code of the date. */
  lemma ReadsIff(v: nat, x: Triple)
    requires 0 <= x.m < 100 && 0 <= x.d < 100
    ensures Reads(v, x) <==> v == EncodeYymmdd(x)
  {
    hide DecodeYymmdd, EncodeYymmdd;
    DecodeEncode(x);
    if Reads(v, x) {
      EncodeDecode(v);
      SameDigits(Date(x.y % 100, x.m, x.d), x);
    }
  }

  lemma SameDigits(x: Triple, y: Triple)
    requires 0 <= x.m < 100 && 0 <= x.d < 100 && x.m == y.m && x.d == y.d && x.y % 100 == y.y % 100
    ensures EncodeYymmdd(x) == EncodeYymmdd(y)
  {
  }

  predicate TwoDigitMonthAndDay(x: Triple) {
    0 <= x.m < 100 && 0 <= x.d < 100
  }

  /** The years a passport date can mean. */
  predicate PassportYear(x: Triple) {
    1900 <= x.y <= 2099
  }

  /** Of all dates from 1900 to 2099 that the code reads as, `n` is the latest before `t`. */
  ghost predicate IsLatestBefore(n: Triple, v: nat, t: Triple) {
    && PassportYear(n) && Reads(v, n) && Before(n, t)
    && forall x :: PassportYear(x) && Reads(v, x) && Before(x, t) ==> NotAfter(x, n)
  }

  /** What the century rule finds, on a day of the years 2000 to 2099: of all dates from 1900 to 2099
      with those digits, the latest that lies before that day. */
  lemma NormalizedIsLatest(ub: nat, t: Triple)
    requires TwoDigitMonthAndDay(t) && 2000 <= t.y <= 2099
    ensures NormalizeYymmdd(ub, EncodeYymmdd(t)).Some? <==> DecodeYymmdd(ub).Some?
    ensures DecodeYymmdd(ub).Some? ==> IsLatestBefore(NormalizeYymmdd(ub, EncodeYymmdd(t)).value, ub, t)
  {
    hide DecodeYymmdd, EncodeYymmdd;
    if DecodeYymmdd(ub).Some? {
      EncodeDecode(ub);
      var (yy, m, d) := DecodeYymmdd(ub).value;
      EncodingOrders(Date(yy, m, d), t);
      Century(t.y);
      Century(2000 + yy);
      Century(1900 + yy);
      forall x | PassportYear(x) && Reads(ub, x) && Before(x, t)
        ensures NotAfter(x, NormalizeYymmdd(ub, EncodeYymmdd(t)).value)
      {
        Century(x.y);
      }
    }
  }

  /** Which dates come back from their code on such a day: those from 2000 on that lie before it, and
      those of the century before whose counterpart a hundred years later does not. */
  lemma NormalizeRoundTripIff(x: Triple, t: Triple)
    requires TwoDigitMonthAndDay(x) && TwoDigitMonthAndDay(t) && 2000 <= t.y <= 2099
    ensures NormalizeYymmdd(EncodeYymmdd(x), EncodeYymmdd(t)) == Some(x) <==>
      || (2000 <= x.y <= 2099 && Before(x, t))
      || (1900 <= x.y <= 1999 && !Before(Date(x.y + 100, x.m, x.d), t))
  {
    hide DecodeYymmdd, EncodeYymmdd;
    DecodeEncode(x);
    EncodingOrders(x, t);
    Century(t.y);
    if PassportYear(x) { Century(x.y); }
  }

  /** The code of a day reads as its date. */
  lemma DateCodeReads(ts: int, days: int)
    ensures Reads(DateCode(ts, days), DateOfDay(ts / SECONDS_PER_DAY + days))
  {
    hide DecodeYymmdd, EncodeYymmdd, DayNumber;
    assert (ts + days * SECONDS_PER_DAY) / SECONDS_PER_DAY == ts / SECONDS_PER_DAY + days;
    DecodeEncode(DateOfDay(ts / SECONDS_PER_DAY + days));
  }

  /** The cutoff on a day: a leap day maps to February 28 when the target year has none. */
  function CutoffOn(x: Date, minAge: nat): Triple {
    var ty := x.y - minAge;
    Date(ty, x.m, if x.m == 2 && x.d == 29 && !IsLeap(ty) then 28 else x.d)
  }

  /** `age_cutoff`. */
  function AgeCutoff(ts: int, minAge: nat): (cutoff: Triple)
    ensures cutoff == CutoffOn(DateAt(ts), minAge)
  {
    CutoffOn(CivilFromUnix(ts), minAge)
  }

  predicate BoundOkOn(ub: nat, current: nat, today: Date, minAge: nat) {
    match NormalizeYymmdd(ub, current)
    case None => false
    case Some(n) => NotAfter(n, CutoffOn(today, minAge))
  }

  /** `birth_bound_ok`. */
  predicate BirthBoundOk(ub: nat, current: nat, now: int, minAge: nat): (ok: bool)
    ensures ok <==> BoundOkOn(ub, current, DateAt(now), minAge)
  {
    match NormalizeYymmdd(ub, current)
    case None => false
    case Some(n) => NotAfter(n, AgeCutoff(now, minAge))
  }

  /** Completed years on the day `today` of someone born on `birth`. */
  function Age(birth: Date, today: Date): int {
    today.y - birth.y - if today.m < birth.m || (today.m == birth.m && today.d < birth.d) then 1 else 0
  }

  /** Born on `birth`, the birthday `years` later is already behind on the day `today`. */
  predicate OlderThan(birth: Triple, years: nat, today: Date) {
    Before(Date(birth.y + years, birth.m, birth.d), today)
  }

  /** What acceptance on a day means: everyone born before the proven bound is older than the minimum
      age that day. */
  lemma AgeGateSound(ub: nat, current: nat, today: Date, minAge: nat, birth: Triple)
    requires BoundOkOn(ub, current, today, minAge) && Before(birth, NormalizeYymmdd(ub, current).value)
    ensures OlderThan(birth, minAge, today) && Age(birth, today) >= minAge
  {
  }

  /** A February 29 whose counterpart `minAge` years earlier does not exist. */
  predicate NoCounterpart(today: Date, minAge: nat) {
    today.m == 2 && today.d == 29 && !IsLeap(today.y - minAge)
  }

  /** The gate is exact, for every input: accepted are precisely the well-formed bounds below which
      everyone is older than the minimum age, but for one: the missing February 29 itself, on that
      day. */
  lemma AgeGateExact(ub: nat, current: nat, today: Date, minAge: nat)
    ensures BoundOkOn(ub, current, today, minAge) <==>
      DecodeYymmdd(ub).Some?
      && var n := NormalizeYymmdd(ub, current).value;
         (forall b :: Before(b, n) ==> OlderThan(b, minAge, today))
         && !(NoCounterpart(today, minAge) && n == Date(today.y - minAge, 2, 29))
  {
    hide DecodeYymmdd;
    if DecodeYymmdd(ub).Some? && !BoundOkOn(ub, current, today, minAge) {
      var n := NormalizeYymmdd(ub, current).value;
      var last := Date(today.y - minAge, today.m, today.d);
      assert !OlderThan(last, minAge, today);
      if n != last { assert Before(last, n); }
    }
  }

  /** A looser policy accepts whatever a stricter one does. */
  lemma AcceptanceMonotone(ub: nat, current: nat, today: Date, minAge: nat, looser: nat)
    requires looser <= minAge && BoundOkOn(ub, current, today, minAge)
    ensures BoundOkOn(ub, current, today, looser)
  {
  }

  /** As time passes the cutoff only moves forward. */
  lemma CutoffMonotone(s: int, t: int, minAge: nat)
    requires s <= t
    ensures NotAfter(CutoffOn(DateAt(s), minAge), CutoffOn(DateAt(t), minAge))
  {
    CivilOrders(s, t);
  }

  /** So a bound once accepted stays accepted for the same proof date. */
  lemma AcceptancePersists(ub: nat, current: nat, s: int, t: int, minAge: nat)
    requires s <= t && BoundOkOn(ub, current, DateAt(s), minAge)
    ensures BoundOkOn(ub, current, DateAt(t), minAge)
  {
    CutoffMonotone(s, t, minAge);
  }

  // ------------------------------------------------------------------ the client's bound

  /** `String(n).padStart(2, "0")` of a two-digit number. */
  function Pad2(n: nat): string {
    if n < 10 then "0" + Numeral(n) else Numeral(n)
  }

  /** `pad(a % b)`, with JavaScript's remainder: a negative year's is negative. */
  function PadRemainder(a: int, b: nat): string
    requires b > 0
  {
    if a >= 0 then Pad2(a % b)
    else if (-a) % b == 0 then "00"
    else "-" + Numeral((-a) % b)
  }

  /** `ageUpperBoundYymmdd`, from the UTC date of the client's clock. */
  ghost function AgeUpperBoundYymmdd(now: int, minAge: nat): string {
    var x := DateAt(now);
    var y := x.y - minAge;
    var d := if x.m == 2 && x.d == 29 && !IsLeap(y) then 28 else x.d;
    PadRemainder(y, 100) + Pad2(x.m) + Pad2(d)
  }

  lemma Pad2IsAscii(n: nat)
    requires n < 100
    ensures Utf8(Pad2(n)) == Ascii2(n)
  {
    if n < 10 {
      assert Numeral(n) == [DigitChar(n)];
      assert Pad2(n) == ['0', DigitChar(n)];
    } else {
      assert Numeral(n) == [DigitChar(n / 10), DigitChar(n % 10)];
    }
    var s := Pad2(n);
    assert |s| == 2 && s[1..] == [s[1]] && s[1..][1..] == [];
    assert Utf8(s) == Utf8Char(s[0]) + Utf8(s[1..]);
    assert Utf8(s[1..]) == Utf8Char(s[1]) + Utf8(s[1..][1..]);
  }

  lemma {:induction false} Utf8Concat(s: string, t: string)
    ensures Utf8(s + t) == Utf8(s) + Utf8(t)
  {
    hide Utf8Char;
    if s == [] {
      assert s + t == t;
    } else {
      Utf8Concat(s[1..], t);
      assert (s + t)[1..] == s[1..] + t;
      Regroup(Utf8Char(s[0]), Utf8(s[1..]), Utf8(t));
    }
  }

  /** The client's text is the encoding of the program's own cutoff. */
  lemma ClientBoundIsCutoff(now: int, minAge: nat)
    requires DateAt(now).y >= minAge
    ensures var c := CutoffOn(DateAt(now), minAge);
      && 0 <= c.m < 100 && 0 <= c.d < 100
      && BigEndian(Utf8(AgeUpperBoundYymmdd(now, minAge))) == EncodeYymmdd(c)
  {
    hide DayNumber, Pad2, Numeral, Utf8, BigEndian;
    var c := CutoffOn(DateAt(now), minAge);
    Pad2IsAscii(c.y % 100);
    Pad2IsAscii(c.m);
    Pad2IsAscii(c.d);
    Utf8Concat(Pad2(c.y % 100) + Pad2(c.m), Pad2(c.d));
    Utf8Concat(Pad2(c.y % 100), Pad2(c.m));
  }

  /** The century rule recovers the cutoff's year; a cutoff of today itself reads as 19xx, which
      is stricter. */
  lemma CenturyRecovered(c: Triple, today: Triple)
    requires 0 <= c.m < 100 && 0 <= c.d < 100 && 0 <= today.m < 100 && 0 <= today.d < 100
    requires 2000 <= today.y <= 2099 && today.y - 100 < c.y
    requires c.y == today.y ==> c.m == today.m && c.d <= today.d
    requires c.y <= today.y
    ensures var n := NormalizeYymmdd(EncodeYymmdd(c), EncodeYymmdd(today)); n.Some? && NotAfter(n.value, c)
  {
    DecodeEncode(c);
    EncodingOrders(c, today);
    Century(c.y);
    Century(today.y);
  }

  lemma Century(y: int)
    requires 1900 <= y <= 2099
    ensures y % 100 == if y >= 2000 then y - 2000 else y - 1900
  {
  }

  /** The bound a client computes on some UTC day is accepted by the program on that day, for
      the years 2000 to 2099 and ages below 100. */
  lemma ClientBoundAccepted(client: int, chain: int, minAge: nat)
    requires client / SECONDS_PER_DAY == chain / SECONDS_PER_DAY
    requires 2000 <= DateAt(client).y <= 2099 && minAge < 100
    ensures var ub := BigEndian(Utf8(AgeUpperBoundYymmdd(client, minAge)));
      && DecodeYymmdd(ub).Some?
      && BoundOkOn(ub, DateCode(chain, 0), DateAt(chain), minAge)
  {
    hide DayNumber, AgeUpperBoundYymmdd, Utf8, BigEndian, EncodeYymmdd, DecodeYymmdd;
    ClientBoundIsCutoff(client, minAge);
    var today := DateAt(client);
    CenturyRecovered(CutoffOn(today, minAge), today);
    assert DateAt(chain) == today && chain + 0 * SECONDS_PER_DAY == chain;
  }
}
