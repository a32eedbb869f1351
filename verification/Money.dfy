/** Reading and printing USDC amounts (apps/web/lib/server/money.ts): what is shown, typed back,
    is the same amount. */
module Money {
  import opened Wrappers
  import opened Text

  const USDC_DECIMALS: nat := 6

  datatype MoneyError = NotText | NotAnAmount | TooManyDecimals

  /** A request field: a string, a number as JavaScript prints it, or something else. */
  datatype Input = Typed(text: string) | Number(printed: string) | Other

  // ------------------------------------------------------------------ string primitives

  /** What `trim` and `\s` take for white space. */
  predicate IsSpace(c: char) {
    var n := c as int;
    (9 <= n <= 13) || n == 0x20 || n == 0xA0 || n == 0x1680 || (0x2000 <= n <= 0x200A)
    || n == 0x2028 || n == 0x2029 || n == 0x202F || n == 0x205F || n == 0x3000 || n == 0xFEFF
  }

  function TrimStart(s: string): string {
    if s != "" && IsSpace(s[0]) then TrimStart(s[1..]) else s
  }

  function TrimEnd(s: string): string {
    if s != "" && IsSpace(s[|s| - 1]) then TrimEnd(s[..|s| - 1]) else s
  }

  function Trim(s: string): string {
    TrimEnd(TrimStart(s))
  }

  // `.replace(/^\$\s*/, "")`
  function DropDollar(s: string): string {
    if s != "" && s[0] == '$' then TrimStart(s[1..]) else s
  }

  predicate IsUsdc(s: string) {
    |s| == 4 && s[0] in "uU" && s[1] in "sS" && s[2] in "dD" && s[3] in "cC"
  }

  /** `.replace(/\s*USDC$/i, "")` */
  function DropUsdc(s: string): string {
    if |s| >= 4 && IsUsdc(s[|s| - 4..]) then TrimEnd(s[..|s| - 4]) else s
  }

  /** `.replace(/,/g, "")` */
  function NoCommas(s: string): string {
    if s == "" then "" else (if s[0] == ',' then "" else [s[0]]) + NoCommas(s[1..])
  }

  function DotAt(s: string): (k: nat)
    ensures k <= |s| && (k < |s| ==> s[k] == '.') && forall i :: 0 <= i < k ==> s[i] != '.'
  {
    if s == "" || s[0] == '.' then 0 else 1 + DotAt(s[1..])
  }

  /** `/^(\d+)(?:\.(\d+))?$/`: the two groups, the second empty when it is missing. */
  function Groups(s: string): (g: Option<(string, string)>)
    ensures g.Some? ==> AllDigits(g.value.0) && AllDigits(g.value.1)
  {
    var k := DotAt(s);
    if k == 0 || !AllDigits(s[..k]) then None
    else if k == |s| then Some((s, ""))
    else if k + 1 == |s| || !AllDigits(s[k + 1..]) then None
    else Some((s[..k], s[k + 1..]))
  }

  /** `frac.padEnd(6, "0")` */
  function PadEnd(s: string, n: nat): string {
    if |s| >= n then s else s + Zeros(n - |s|)
  }

  function PadStart(s: string, n: nat): string {
    if |s| >= n then s else Zeros(n - |s|) + s
  }

  /** `.replace(/0+$/, "")` */
  function TrimZeros(s: string): (t: string)
    ensures |t| <= |s| && t == s[..|t|]
    ensures AllDigits(s) ==> AllDigits(t)
  {
    if s != "" && s[|s| - 1] == '0' then TrimZeros(s[..|s| - 1]) else s
  }

  // ------------------------------------------------------------------ reading

  function Stripped(s: string): string {
    Trim(NoCommas(DropUsdc(DropDollar(Trim(s)))))
  }

  function Valued(g: (string, string)): nat
    requires AllDigits(g.0) && AllDigits(g.1) && |g.1| <= USDC_DECIMALS
  {
    NumeralValue(g.0) * Pow10(USDC_DECIMALS) + NumeralValue(PadEnd(g.1, USDC_DECIMALS))
  }

  function ParseText(s: string): Result<nat, MoneyError> {
    match Groups(Stripped(s))
    case None => Err(NotAnAmount)
    case Some(g) => if |g.1| > USDC_DECIMALS then Err(TooManyDecimals) else Ok(Valued(g))
  }

  /** `parseUsdc` */
  function ParseUsdc(input: Input): Result<nat, MoneyError> {
    match input
    case Typed(s) => ParseText(s)
    case Number(s) => ParseText(s)
    case Other => Err(NotText)
  }

  // ------------------------------------------------------------------ printing

  function Abs(n: int): nat { if n < 0 then -n else n }

  function Sign(n: int): string { if n < 0 then "-" else "" }

  function Fraction(amount: nat, decimals: nat): string {
    TrimZeros(PadStart(Numeral(amount % Pow10(decimals)), decimals))
  }

  function Whole(amount: nat, decimals: nat): string {
    Numeral(Quotient(amount, Pow10(decimals)))
  }

  function Quotient(a: nat, b: nat): (q: nat)
    requires b > 0
    ensures q == a / b
  {
    QuotientNonNegative(a, b);
    a / b
  }

  lemma QuotientNonNegative(a: nat, b: nat)
    requires b > 0
    ensures a / b >= 0
  {
  }

  function WithFraction(whole: string, frac: string): string {
    whole + if frac == "" then "" else "." + frac
  }

  /** `formatUnits` */
  function FormatUnits(amount: int, decimals: nat): string {
    Sign(amount) + WithFraction(Whole(Abs(amount), decimals), Fraction(Abs(amount), decimals))
  }

  /** `group`: a comma wherever a multiple of three digits follows, but not in front. */
  function GroupFrom(whole: string, i: nat): string
    requires i <= |whole|
    decreases |whole| - i
  {
    if i == |whole| then ""
    else (if i > 0 && (|whole| - i) % 3 == 0 then "," else "") + [whole[i]] + GroupFrom(whole, i + 1)
  }

  function Group(whole: string): string {
    GroupFrom(whole, 0)
  }

  function Cents(frac: string): string {
    if |frac| == 1 then frac + "0" else frac
  }

  function Dollars(amount: nat): string {
    "$" + WithFraction(Group(Whole(amount, USDC_DECIMALS)), Cents(Fraction(amount, USDC_DECIMALS)))
  }

  /** `usdDisplay` */
  function UsdDisplay(amount: int): string {
    Sign(amount) + Dollars(Abs(amount))
  }

  // ------------------------------------------------------------------ stripping

  predicate AllSpaces(s: string) {
    forall i :: 0 <= i < |s| ==> IsSpace(s[i])
  }

  /** Digits, points and commas, at least one. */
  predicate Plain(s: string) {
    s != "" && forall i :: 0 <= i < |s| ==> IsDigit(s[i]) || s[i] == '.' || s[i] == ','
  }

  predicate Edged(s: string) {
    s != "" && !IsSpace(s[0]) && !IsSpace(s[|s| - 1])
  }

  lemma {:induction false} TrimStartDrops(w: string, s: string)
    requires AllSpaces(w) && (s == "" || !IsSpace(s[0]))
    ensures TrimStart(w + s) == s
  {
    if w == "" {
      assert w + s == s;
    } else {
      assert (w + s)[1..] == w[1..] + s;
      TrimStartDrops(w[1..], s);
    }
  }

  lemma {:induction false} TrimEndDrops(s: string, w: string)
    requires AllSpaces(w) && (s == "" || !IsSpace(s[|s| - 1]))
    ensures TrimEnd(s + w) == s
  {
    if w == "" {
      assert s + w == s;
    } else {
      assert (s + w)[..|s + w| - 1] == s + w[..|w| - 1];
      TrimEndDrops(s, w[..|w| - 1]);
    }
  }

  lemma TrimDrops(v: string, s: string, w: string)
    requires AllSpaces(v) && AllSpaces(w) && Edged(s)
    ensures Trim(v + s + w) == s
  {
    assert v + s + w == v + (s + w) && (s + w)[0] == s[0];
    TrimStartDrops(v, s + w);
    TrimEndDrops(s, w);
  }

  lemma TrimKeeps(s: string)
    requires s == "" || Edged(s)
    ensures Trim(s) == s
  {
  }

  lemma {:induction false} NoCommasKeeps(s: string)
    ensures forall i :: 0 <= i < |NoCommas(s)| ==> NoCommas(s)[i] in s && NoCommas(s)[i] != ','
  {
    if s != "" {
      NoCommasKeeps(s[1..]);
      var t := NoCommas(s);
      forall i | 0 <= i < |t| ensures t[i] in s && t[i] != ',' {
        if s[0] == ',' {
          assert t[i] in s[1..];
        } else if i > 0 {
          assert t[i] == NoCommas(s[1..])[i - 1];
          assert t[i] in s[1..];
        }
      }
    }
  }

  lemma PlainEdges(s: string)
    requires Plain(s)
    ensures Edged(s) && s[0] != '$' && !(|s| >= 4 && IsUsdc(s[|s| - 4..]))
    ensures Trim(NoCommas(s)) == NoCommas(s)
  {
    NoCommasKeeps(s);
    var t := NoCommas(s);
    forall i | 0 <= i < |t| ensures !IsSpace(t[i]) {
      var j :| 0 <= j < |s| && s[j] == t[i];
    }
    TrimKeeps(t);
  }

  /** The dollar sign in front, the unit behind and white space around them make no difference. */
  lemma DressMakesNoDifference(s: string, u: string, v: string, w: string, x: string, unit: string)
    requires Plain(s) && AllSpaces(u) && AllSpaces(v) && AllSpaces(w) && AllSpaces(x) && IsUsdc(unit)
    ensures Stripped(s) == NoCommas(s)
    ensures Stripped("$" + s) == NoCommas(s)
    ensures Stripped(u + ("$" + v + s + w + unit) + x) == NoCommas(s)
  {
    hide Trim, NoCommas;
    PlainEdges(s);
    TrimKeeps(s);
    TrimKeeps("$" + s);
    assert ("$" + s)[1..] == s && TrimStart(s) == s;
    var core := "$" + v + s + w + unit;
    assert core[|core| - 1] == unit[3];
    TrimDrops(u, core, x);
    Undressed(s, v, w, unit);
  }

  lemma Undressed(s: string, v: string, w: string, unit: string)
    requires Plain(s) && AllSpaces(v) && AllSpaces(w) && IsUsdc(unit)
    ensures DropUsdc(DropDollar("$" + v + s + w + unit)) == s
  {
    hide TrimStart, DropUsdc;
    PlainEdges(s);
    var core := "$" + v + s + w + unit;
    assert core[1..] == v + (s + w + unit) && (s + w + unit)[0] == s[0];
    TrimStartDrops(v, s + w + unit);
    DropsUnit(s, w, unit);
  }

  lemma DropsUnit(s: string, w: string, unit: string)
    requires Plain(s) && AllSpaces(w) && IsUsdc(unit)
    ensures DropUsdc(s + w + unit) == s
  {
    hide TrimEnd, NoCommas, Trim;
    PlainEdges(s);
    var t := s + w + unit;
    assert t[|t| - 4..] == unit && t[..|t| - 4] == s + w;
    TrimEndDrops(s, w);
  }

  // ------------------------------------------------------------------ the numbers read back

  lemma {:induction false} DotAtPoint(whole: string, rest: string)
    requires forall i :: 0 <= i < |whole| ==> whole[i] != '.'
    requires rest == "" || rest[0] == '.'
    ensures DotAt(whole + rest) == |whole|
  {
    assert forall i :: 0 <= i < |whole| ==> (whole + rest)[i] == whole[i];
    if rest != "" { assert (whole + rest)[|whole|] == '.'; }
  }

  lemma DigitsAreNoPoints(s: string)
    requires AllDigits(s)
    ensures forall i :: 0 <= i < |s| ==> s[i] != '.' && s[i] != ','
  {
    forall i | 0 <= i < |s| ensures s[i] != '.' && s[i] != ',' { assert IsDigit(s[i]); }
  }

  lemma GroupsOf(whole: string, frac: string)
    requires whole != "" && AllDigits(whole) && AllDigits(frac)
    ensures Groups(WithFraction(whole, frac)) == Some((whole, frac))
  {
    DigitsAreNoPoints(whole);
    var s := WithFraction(whole, frac);
    if frac == "" {
      DotAtPoint(whole, "");
      assert s == whole && s[..|whole|] == whole;
    } else {
      DotAtPoint(whole, "." + frac);
      assert s[..|whole|] == whole && s[|whole| + 1..] == frac;
    }
  }

  lemma {:induction false} ZerosAfter(s: string)
    ensures TrimZeros(s) + Zeros(|s| - |TrimZeros(s)|) == s
  {
    if s != "" && s[|s| - 1] == '0' {
      var t := s[..|s| - 1];
      ZerosAfter(t);
      var z := |t| - |TrimZeros(t)|;
      assert Zeros(z + 1) == Zeros(z) + "0";
      assert s == t + "0";
      assert TrimZeros(t) + (Zeros(z) + "0") == (TrimZeros(t) + Zeros(z)) + "0";
    } else {
      assert s + Zeros(0) == s;
    }
  }

  lemma PaddedValue(n: nat)
    requires n < Pow10(USDC_DECIMALS)
    ensures var p := PadStart(Numeral(n), USDC_DECIMALS); |p| == USDC_DECIMALS && AllDigits(p) && NumeralValue(p) == n
  {
    NumeralLength(n, USDC_DECIMALS);
    NumeralRoundTrip(n);
    var k := USDC_DECIMALS - |Numeral(n)|;
    ZerosAreZero(k);
    NumeralValueConcat(Zeros(k), Numeral(n));
  }

  /** The printed fraction, padded again, is the fraction. */
  lemma FractionValue(amount: nat)
    ensures var f := Fraction(amount, USDC_DECIMALS);
      && AllDigits(f) && |f| <= USDC_DECIMALS
      && NumeralValue(PadEnd(f, USDC_DECIMALS)) == amount % Pow10(USDC_DECIMALS)
  {
    var n := amount % Pow10(USDC_DECIMALS);
    PaddedValue(n);
    var p := PadStart(Numeral(n), USDC_DECIMALS);
    ZerosAfter(p);
    if |TrimZeros(p)| == USDC_DECIMALS { assert Zeros(0) == ""; }
  }

  lemma CentsValue(frac: string)
    requires AllDigits(frac) && |frac| <= USDC_DECIMALS
    ensures AllDigits(Cents(frac)) && |Cents(frac)| <= USDC_DECIMALS
    ensures PadEnd(Cents(frac), USDC_DECIMALS) == PadEnd(frac, USDC_DECIMALS)
    ensures Cents(frac) == "" <==> frac == ""
  {
    if |frac| == 1 { assert "0" + Zeros(4) == Zeros(5) && frac + ("0" + Zeros(4)) == frac + "0" + Zeros(4); }
  }

  lemma AmountSplits(amount: nat)
    ensures NumeralValue(Whole(amount, USDC_DECIMALS)) * Pow10(USDC_DECIMALS) + amount % Pow10(USDC_DECIMALS) == amount
  {
    NumeralRoundTrip(amount / Pow10(USDC_DECIMALS));
  }

  lemma {:induction false} NoCommasConcat(s: string, t: string)
    ensures NoCommas(s + t) == NoCommas(s) + NoCommas(t)
  {
    if s == "" {
      assert s + t == t;
    } else {
      NoCommasConcat(s[1..], t);
      assert (s + t)[1..] == s[1..] + t;
      Regroup(if s[0] == ',' then "" else [s[0]], NoCommas(s[1..]), NoCommas(t));
    }
  }

  lemma {:induction false} NoCommasDigits(s: string)
    requires AllDigits(s)
    ensures NoCommas(s) == s
  {
    if s != "" {
      DigitsAreNoPoints(s);
      NoCommasDigits(s[1..]);
      assert s == [s[0]] + s[1..];
    }
  }

  /** Taking the commas out undoes the grouping. */
  lemma {:induction false} GroupUndone(whole: string, i: nat)
    requires AllDigits(whole) && i <= |whole|
    ensures NoCommas(GroupFrom(whole, i)) == whole[i..]
    ensures forall k :: 0 <= k < |GroupFrom(whole, i)| ==>
      IsDigit(GroupFrom(whole, i)[k]) || GroupFrom(whole, i)[k] == ','
    ensures i < |whole| ==> GroupFrom(whole, i) != ""
    decreases |whole| - i
  {
    if i < |whole| {
      GroupUndone(whole, i + 1);
      DigitsAreNoPoints(whole);
      var comma := if i > 0 && (|whole| - i) % 3 == 0 then "," else "";
      var rest := GroupFrom(whole, i + 1);
      NoCommasConcat(comma + [whole[i]], rest);
      OneChar(comma, whole[i]);
      assert whole[i..] == [whole[i]] + whole[i + 1..];
    }
  }

  lemma OneChar(comma: string, c: char)
    requires (comma == "" || comma == ",") && c != ','
    ensures NoCommas(comma + [c]) == [c]
  {
    assert [c][1..] == "" && NoCommas([c]) == [c];
    if comma == "," { assert (comma + [c])[1..] == [c]; }
  }

  lemma NoCommasFraction(whole: string, frac: string)
    requires AllDigits(frac)
    ensures NoCommas(WithFraction(whole, frac)) == WithFraction(NoCommas(whole), frac)
  {
    NoCommasDigits(frac);
    NoCommasConcat(whole, if frac == "" then "" else "." + frac);
    NoCommasConcat(".", frac);
    assert "."[1..] == "" && NoCommas(".") == ".";
  }

  lemma PlainAmount(whole: string, frac: string)
    requires whole != "" && AllDigits(frac)
    requires forall k :: 0 <= k < |whole| ==> IsDigit(whole[k]) || whole[k] == ','
    ensures Plain(WithFraction(whole, frac))
  {
    var s := WithFraction(whole, frac);
    forall i | 0 <= i < |s| ensures IsDigit(s[i]) || s[i] == '.' || s[i] == ',' {
      if i > |whole| { assert s[i] == frac[i - |whole| - 1]; }
    }
  }

  /** A text that strips to the whole part and a padded fraction of the amount is read as it. */
  lemma ReadsBack(s: string, amount: nat, frac: string)
    requires AllDigits(frac) && |frac| <= USDC_DECIMALS
    requires PadEnd(frac, USDC_DECIMALS) == PadEnd(Fraction(amount, USDC_DECIMALS), USDC_DECIMALS)
    requires Stripped(s) == WithFraction(Whole(amount, USDC_DECIMALS), frac)
    ensures ParseText(s) == Ok(amount)
  {
    hide Stripped, PadEnd, Fraction, Pow10, WithFraction;
    GroupsOf(Whole(amount, USDC_DECIMALS), frac);
    FractionValue(amount);
    AmountSplits(amount);
  }

  // ------------------------------------------------------------------ main results

  /** Typing the plain form back, dressed or not, gives the amount. */
  lemma FormatRoundTrip(amount: nat)
    ensures ParseUsdc(Typed(FormatUnits(amount, USDC_DECIMALS))) == Ok(amount)
    ensures ParseUsdc(Typed("$" + FormatUnits(amount, USDC_DECIMALS))) == Ok(amount)
    ensures ParseUsdc(Typed(FormatUnits(amount, USDC_DECIMALS) + " USDC")) == Ok(amount)
  {
    hide Stripped, PadEnd, Fraction, WithFraction, NoCommas, Plain;
    var whole, frac := Whole(amount, USDC_DECIMALS), Fraction(amount, USDC_DECIMALS);
    var s := WithFraction(whole, frac);
    assert FormatUnits(amount, USDC_DECIMALS) == s;
    FractionValue(amount);
    PlainAmount(whole, frac);
    NoCommasFraction(whole, frac);
    NoCommasDigits(whole);
    DressMakesNoDifference(s, "", "", "", "", "USDC");
    UnitOnly(s);
    ReadsBack(s, amount, frac);
    ReadsBack("$" + s, amount, frac);
    ReadsBack(s + " USDC", amount, frac);
  }

  lemma UnitOnly(s: string)
    requires Plain(s)
    ensures Stripped(s + " USDC") == NoCommas(s)
  {
    hide Trim, NoCommas, DropUsdc, Plain;
    PlainEdges(s);
    var t := s + " USDC";
    assert t == s + " " + "USDC" && t[0] == s[0] && t[|t| - 1] == 'C';
    TrimKeeps(t);
    DropsUnit(s, " ", "USDC");
  }

  /** Typing the displayed form back gives the amount: it passes the confirm gate. */
  lemma DisplayRoundTrip(amount: nat)
    ensures ParseUsdc(Typed(UsdDisplay(amount))) == Ok(amount)
  {
    hide Stripped, PadEnd, Fraction, WithFraction, NoCommas, Plain;
    var whole, frac := Whole(amount, USDC_DECIMALS), Fraction(amount, USDC_DECIMALS);
    FractionValue(amount);
    CentsValue(frac);
    GroupUndone(whole, 0);
    assert whole[0..] == whole;
    var s := WithFraction(Group(whole), Cents(frac));
    PlainAmount(Group(whole), Cents(frac));
    NoCommasFraction(Group(whole), Cents(frac));
    DressMakesNoDifference(s, "", "", "", "", "USDC");
    assert UsdDisplay(amount) == "$" + s;
    ReadsBack("$" + s, amount, Cents(frac));
  }

  /** A negative amount is shown, but never accepted back. */
  lemma NegativeIsRefused(amount: int)
    requires amount < 0
    ensures ParseUsdc(Typed(FormatUnits(amount, USDC_DECIMALS))).Err? && ParseUsdc(Typed(UsdDisplay(amount))).Err?
  {
    MinusIsRefused(FormatUnits(amount, USDC_DECIMALS));
    MinusIsRefused(UsdDisplay(amount));
  }

  lemma MinusIsRefused(s: string)
    requires s != "" && s[0] == '-'
    ensures ParseText(s).Err?
  {
    TrimKeepsHead(s);
    var a := Trim(s);
    if |a| >= 4 && IsUsdc(a[|a| - 4..]) { TrimKeepsHead(a[..|a| - 4]); }
    var b := DropUsdc(DropDollar(a));
    assert b != "" && b[0] == '-';
    TrimKeepsHead(NoCommas(b));
    MinusIsNoNumber(Stripped(s));
  }

  lemma MinusIsNoNumber(t: string)
    requires t != "" && t[0] == '-'
    ensures Groups(t) == None
  {
    var k := DotAt(t);
    if k > 0 { assert t[..k][0] == '-' && !IsDigit(t[..k][0]); }
  }

  lemma {:induction false} TrimKeepsHead(s: string)
    requires s != "" && !IsSpace(s[0])
    ensures TrimEnd(s) != "" && TrimEnd(s)[0] == s[0]
  {
    if |s| > 1 && IsSpace(s[|s| - 1]) { TrimKeepsHead(s[..|s| - 1]); }
  }

  /** Two different amounts are never displayed alike, negative ones included. */
  lemma DisplayInjective(a: int, b: int)
    requires UsdDisplay(a) == UsdDisplay(b)
    ensures a == b
  {
    DisplayRoundTrip(Abs(a));
    DisplayRoundTrip(Abs(b));
    hide ParseText;
    SignShows(a);
    SignShows(b);
    assert Dollars(Abs(a)) == UsdDisplay(a)[|Sign(a)|..] && Dollars(Abs(b)) == UsdDisplay(b)[|Sign(b)|..];
  }

  lemma SignShows(a: int)
    ensures UsdDisplay(a)[0] == '-' <==> a < 0
    ensures UsdDisplay(Abs(a)) == Dollars(Abs(a))
  {
  }

  // ------------------------------------------------------------------ what is an amount

  /** Digits, with a point and more digits or without. */
  ghost predicate IsAmount(t: string, whole: string, frac: string) {
    whole != "" && AllDigits(whole) && AllDigits(frac) && t == whole + (if frac == "" then "" else "." + frac)
  }

  lemma GroupsAre(t: string)
    ensures Groups(t).Some? ==> IsAmount(t, Groups(t).value.0, Groups(t).value.1)
    ensures forall whole, frac :: IsAmount(t, whole, frac) ==> Groups(t) == Some((whole, frac))
  {
    var k := DotAt(t);
    if k < |t| { assert t == t[..k] + "." + t[k + 1..]; } else { assert t[..k] == t; }
    forall whole, frac | IsAmount(t, whole, frac) ensures Groups(t) == Some((whole, frac)) { GroupsOf(whole, frac); }
  }

  lemma PaddedFraction(frac: string)
    requires AllDigits(frac) && |frac| <= USDC_DECIMALS
    ensures NumeralValue(PadEnd(frac, USDC_DECIMALS)) == NumeralValue(frac) * Pow10(USDC_DECIMALS - |frac|)
  {
    if |frac| == USDC_DECIMALS {
      assert Pow10(0) == 1;
    } else {
      ZerosAreZero(USDC_DECIMALS - |frac|);
      NumeralValueConcat(frac, Zeros(USDC_DECIMALS - |frac|));
    }
  }

  lemma ValuedIs(whole: string, frac: string)
    requires AllDigits(whole) && AllDigits(frac) && |frac| <= USDC_DECIMALS
    ensures Valued((whole, frac)) == NumeralValue(whole) * 1_000_000 + NumeralValue(frac) * Pow10(6 - |frac|)
  {
    assert Pow10(USDC_DECIMALS) == 1_000_000;
    hide NumeralValue, PadEnd, Pow10;
    PaddedFraction(frac);
  }

  /** What is accepted, typed or as a number: once stripped, digits with at most six decimals, worth what
      they say in millionths; more decimals and everything else is refused, each with its error. */
  lemma ParsesIff(input: Input, s: string, n: nat)
    requires input == Typed(s) || input == Number(s)
    ensures ParseUsdc(input) == Ok(n) <==>
      exists whole, frac :: IsAmount(Stripped(s), whole, frac) && |frac| <= 6
        && n == NumeralValue(whole) * 1_000_000 + NumeralValue(frac) * Pow10(6 - |frac|)
    ensures ParseUsdc(input) == Err(TooManyDecimals) <==>
      exists whole, frac :: IsAmount(Stripped(s), whole, frac) && |frac| > 6
    ensures ParseUsdc(input) == Err(NotAnAmount) <==> forall whole, frac :: !IsAmount(Stripped(s), whole, frac)
    ensures ParseUsdc(Other) == Err(NotText)
  {
    hide Stripped, Groups, IsAmount, NumeralValue, Pow10, PadEnd, Valued;
    GroupsAre(Stripped(s));
    var g := Groups(Stripped(s));
    if g.Some? && |g.value.1| <= USDC_DECIMALS { ValuedIs(g.value.0, g.value.1); }
  }

  // ------------------------------------------------------------------ what a display looks like

  /** Counted from the right, every fourth character is a comma, and no other is. */
  ghost predicate InThrees(g: string) {
    forall j :: 0 <= j < |g| ==> (g[|g| - 1 - j] == ',' <==> j % 4 == 3)
  }

  lemma {:induction false} GroupsInThrees(whole: string, i: nat)
    requires AllDigits(whole) && i <= |whole|
    ensures var g, n := GroupFrom(whole, i), |whole| - i;
      InThrees(g) && |g| == n + if i > 0 || n == 0 then n / 3 else (n - 1) / 3
    decreases |whole| - i
  {
    if i < |whole| {
      GroupsInThrees(whole, i + 1);
      DigitsAreNoPoints(whole);
      var rest, n := GroupFrom(whole, i + 1), |whole| - i;
      var head := (if i > 0 && n % 3 == 0 then "," else "") + [whole[i]];
      var g := GroupFrom(whole, i);
      assert g == head + rest;
      forall j | 0 <= j < |g| ensures g[|g| - 1 - j] == ',' <==> j % 4 == 3 {
        if j < |rest| { assert g[|g| - 1 - j] == rest[|rest| - 1 - j]; }
      }
    }
  }

  lemma {:induction false} NoTrailingZero(s: string)
    ensures TrimZeros(s) != "" ==> TrimZeros(s)[|TrimZeros(s)| - 1] != '0'
  {
    if s != "" && s[|s| - 1] == '0' { NoTrailingZero(s[..|s| - 1]); }
  }

  /** Dollars in threes; cents only if there are any, then at least two digits and no more than needed. */
  lemma DisplayShape(amount: nat) returns (dollars: string, cents: string)
    ensures UsdDisplay(amount) == "$" + dollars + if cents == "" then "" else "." + cents
    ensures InThrees(dollars) && NoCommas(dollars) == Numeral(amount / Pow10(USDC_DECIMALS))
    ensures |cents| != 1 && (|cents| > 2 ==> cents[|cents| - 1] != '0')
  {
    hide Pow10, Numeral, GroupFrom, TrimZeros, PadStart, InThrees;
    var whole, frac := Whole(amount, USDC_DECIMALS), Fraction(amount, USDC_DECIMALS);
    dollars, cents := Group(whole), Cents(frac);
    WholeIsDigits(amount);
    GroupsInThrees(whole, 0);
    GroupUndone(whole, 0);
    assert whole[0..] == whole;
    NoTrailingZero(PadStart(Numeral(amount % Pow10(USDC_DECIMALS)), USDC_DECIMALS));
  }

  lemma WholeIsDigits(amount: nat)
    ensures AllDigits(Whole(amount, USDC_DECIMALS))
  {
    NumeralRoundTrip(Quotient(amount, Pow10(USDC_DECIMALS)));
  }
}
