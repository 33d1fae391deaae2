/** Price strings: how the order book reads them as numbers, how it compares them as strings,
    and exactly when the two orders agree. */
module Prices {

  datatype Option<+T> = None | Some(value: T)

  /** strconv.ParseFloat is library code. The order book is verified for every parser of
      non-negative numbers; Decimal below is the one for plain decimal notation. */
  type Parser = f: string -> Option<real> | forall s :: f(s).Some? ==> f(s).value >= 0.0
    witness (s: string) => None

  /** utils.ParseFloat: the parse error is dropped, which leaves 0. */
  function Value(num: Parser, s: string): (v: real)
    ensures v >= 0.0
  {
    match num(s)
    case Some(v) => v
    case None => 0.0
  }

  /** The number the code takes a string for: what the parser reads, and 0 where it reads nothing. */
  predicate Reads(num: Parser, s: string, v: real) {
    (num(s).Some? ==> v == num(s).value) && (num(s).None? ==> v == 0.0)
  }

  lemma ScaleOrder(x: real, y: real, factor: real)
    requires factor > 0.0
    ensures x * factor <= y * factor <==> x <= y
  {
    if x > y {
      assert x * factor > y * factor;
    }
  }

  // ---------------------------------------------------------------- strings

  /** Go's <= on strings. */
  predicate StrLe(a: string, b: string) {
    if a == [] then true
    else if b == [] then false
    else if a[0] != b[0] then a[0] < b[0]
    else StrLe(a[1..], b[1..])
  }

  /** The first place where two strings differ. */
  predicate DifferFirstAt(a: string, b: string, k: nat) {
    k < |a| && k < |b| && a[k] != b[k] && forall i :: 0 <= i < k ==> a[i] == b[i]
  }

  /** In other words: a is a prefix of b, or has the smaller character where they first differ. */
  lemma {:induction false} StrLeMeans(a: string, b: string)
    ensures StrLe(a, b) <==> a <= b || exists k: nat :: DifferFirstAt(a, b, k) && a[k] < b[k]
  {
    if a == [] || b == [] {
    } else if a[0] != b[0] {
      assert DifferFirstAt(a, b, 0);
    } else {
      StrLeMeans(a[1..], b[1..]);
      assert a == [a[0]] + a[1..] && b == [b[0]] + b[1..];
      forall k: nat | DifferFirstAt(a[1..], b[1..], k)
        ensures DifferFirstAt(a, b, k + 1)
      {
        assert forall i :: 0 < i <= k ==> a[i] == a[1..][i - 1] && b[i] == b[1..][i - 1];
      }
      forall k: nat | DifferFirstAt(a, b, k)
        ensures k > 0 && DifferFirstAt(a[1..], b[1..], k - 1)
      {
      }
    }
  }

  lemma {:induction false} StrLeAntisymmetric(a: string, b: string)
    requires StrLe(a, b) && StrLe(b, a)
    ensures a == b
  {
    if a == [] || b == [] {
    } else {
      StrLeAntisymmetric(a[1..], b[1..]);
      assert a == [a[0]] + a[1..] && b == [b[0]] + b[1..];
    }
  }

  lemma {:induction false} StrLeTotal(a: string, b: string)
    ensures StrLe(a, b) || StrLe(b, a)
  {
    if a == [] || b == [] || a[0] != b[0] {
    } else {
      StrLeTotal(a[1..], b[1..]);
    }
  }

  /** Comparing two strings with heads of one length: the heads decide unless they are equal. */
  lemma {:induction false} StrLeSplit(a: string, b: string, x: string, y: string)
    requires |a| == |b|
    ensures StrLe(a + x, b + y) <==> if a == b then StrLe(x, y) else StrLe(a, b)
  {
    if a == [] {
      assert a + x == x && b + y == y;
    } else {
      assert (a + x)[1..] == a[1..] + x && (b + y)[1..] == b[1..] + y;
      assert a == [a[0]] + a[1..] && b == [b[0]] + b[1..];
      StrLeSplit(a[1..], b[1..], x, y);
    }
  }

  /** A string comes before the strings it is a proper prefix of. */
  lemma PrefixSmaller(a: string, b: string)
    requires a < b
    ensures !StrLe(b, a)
  {
    StrLeSplit(a, a, b[|a|..], "");
    assert a + "" == a && a + b[|a|..] == b;
  }

  /** The price universes on which the string search of the book and its numeric sort agree. */
  ghost predicate Coherent(num: Parser, prices: iset<string>) {
    forall a, b :: a in prices && b in prices ==> (StrLe(a, b) <==> Value(num, a) <= Value(num, b))
  }
}

/** Decimal notation: string order is numeric order on prices of one width, and on no mixture. */
module DecimalPrices {
  import opened Prices

  predicate IsDigit(c: char) {
    '0' <= c <= '9'
  }

  function Digit(c: char): (d: nat)
    requires IsDigit(c)
    ensures d <= 9
  {
    c as int - '0' as int
  }

  predicate AllDigits(s: string) {
    forall i :: 0 <= i < |s| ==> IsDigit(s[i])
  }

  function Pow10(n: nat): (p: nat)
    ensures p >= 1
  {
    if n == 0 then 1 else 10 * Pow10(n - 1)
  }

  /** A digit in front of a number below the power. */
  function Prepend(digit: nat, power: nat, rest: nat): (v: nat)
    ensures digit > 0 ==> v >= power
    ensures digit <= 9 && rest < power ==> v < 10 * power
  {
    assert digit > 0 ==> digit * power >= power;
    assert digit <= 9 ==> digit * power <= 9 * power;
    digit * power + rest
  }

  lemma PrependOrder(d: nat, e: nat, power: nat, rest: nat, other: nat)
    requires d < e && rest < power
    ensures Prepend(d, power, rest) < Prepend(e, power, other)
  {
    assert (d + 1) * power <= e * power;
  }

  lemma PrependMonotone(digit: nat, power: nat, rest: nat, other: nat)
    ensures Prepend(digit, power, rest) <= Prepend(digit, power, other) <==> rest <= other
  {
  }

  /** The number a run of decimal digits denotes. */
  function NatValue(s: string): (v: nat)
    requires AllDigits(s)
    ensures v < Pow10(|s|)
  {
    if s == [] then 0 else Prepend(Digit(s[0]), Pow10(|s| - 1), NatValue(s[1..]))
  }

  /** Position of the decimal point, or the length when there is none. */
  function DotIndex(s: string): (d: nat)
    ensures d <= |s|
    ensures forall i :: 0 <= i < d ==> s[i] != '.'
    ensures d < |s| ==> s[d] == '.'
  {
    if s == [] then 0 else if s[0] == '.' then 0 else 1 + DotIndex(s[1..])
  }

  function Ratio(x: nat, p: nat): (r: real)
    requires p > 0
    ensures r >= 0.0
  {
    x as real / p as real
  }

  /** strconv.ParseFloat on unsigned decimal notation; None is its syntax error. */
  function Decimal(s: string): (r: Option<real>)
    ensures r.Some? ==> r.value >= 0.0
  {
    var d := DotIndex(s);
    var whole := s[..d];
    var fraction := if d < |s| then s[d + 1..] else "";
    if AllDigits(whole) && AllDigits(fraction) && |whole| + |fraction| > 0 then
      Some(Ratio(NatValue(whole + fraction), Pow10(|fraction|)))
    else
      None
  }

  /** Digit strings of one length are ordered as their numbers. */
  lemma {:induction false} DigitOrder(a: string, b: string)
    requires |a| == |b| && AllDigits(a) && AllDigits(b)
    ensures StrLe(a, b) <==> NatValue(a) <= NatValue(b)
  {
    if a == [] {
    } else {
      var (p, x, y) := (Pow10(|a| - 1), NatValue(a[1..]), NatValue(b[1..]));
      if a[0] == b[0] {
        DigitOrder(a[1..], b[1..]);
        PrependMonotone(Digit(a[0]), p, x, y);
      } else if a[0] < b[0] {
        PrependOrder(Digit(a[0]), Digit(b[0]), p, x, y);
      } else {
        PrependOrder(Digit(b[0]), Digit(a[0]), p, y, x);
      }
    }
  }

  /** A price written with ip digits, and a point and dp digits unless dp is 0. */
  predicate Shape(s: string, ip: nat, dp: nat) {
    if dp == 0 then
      |s| == ip > 0 && AllDigits(s)
    else
      |s| == ip + 1 + dp && s[ip] == '.' && AllDigits(s[..ip]) && AllDigits(s[ip + 1..])
  }

  /** The digits of a price, without its point. */
  function Digits(s: string, ip: nat, dp: nat): (digits: string)
    requires Shape(s, ip, dp)
    ensures |digits| == ip + dp && AllDigits(digits)
  {
    if dp == 0 then s else s[..ip] + s[ip + 1..]
  }

  lemma DotAt(s: string, ip: nat, dp: nat)
    requires Shape(s, ip, dp)
    ensures DotIndex(s) == ip
  {
    forall i | 0 <= i < ip
      ensures IsDigit(s[i])
    {
      assert s[i] == s[..ip][i];
    }
  }

  /** The number a price denotes. */
  function Number(s: string, ip: nat, dp: nat): real
    requires Shape(s, ip, dp)
  {
    Ratio(NatValue(Digits(s, ip, dp)), Pow10(dp))
  }

  lemma ShapeValue(s: string, ip: nat, dp: nat)
    requires Shape(s, ip, dp)
    ensures Decimal(s) == Some(Number(s, ip, dp))
  {
    DotAt(s, ip, dp);
    assert dp == 0 ==> s[..ip] + "" == s;
  }

  lemma RatioOrder(x: nat, y: nat, p: nat)
    requires p > 0
    ensures Ratio(x, p) <= Ratio(y, p) <==> x <= y
  {
    DivideOrder(x as real, y as real, p as real);
  }

  lemma DivideOrder(x: real, y: real, factor: real)
    requires factor > 0.0
    ensures x / factor <= y / factor <==> x <= y
  {
    var u, v :| u == x / factor && v == y / factor;
    assert u * factor == x && v * factor == y;
    ScaleOrder(u, v, factor);
  }

  lemma DropPoint(a: string, b: string, ip: nat, dp: nat)
    requires Shape(a, ip, dp) && Shape(b, ip, dp)
    ensures StrLe(a, b) <==> StrLe(Digits(a, ip, dp), Digits(b, ip, dp))
  {
    if dp > 0 {
      var (ai, bi, af, bf) := (a[..ip], b[..ip], a[ip + 1..], b[ip + 1..]);
      StrLeSplit(ai, bi, af, bf);
      StrLeSplit(ai, bi, "." + af, "." + bf);
      StrLeSplit(".", ".", af, bf);
      assert a == ai + ("." + af) && b == bi + ("." + bf);
    }
  }

  /** On prices of one width, string order is numeric order. */
  lemma CommonWidthOrder(a: string, b: string, ip: nat, dp: nat)
    requires Shape(a, ip, dp) && Shape(b, ip, dp)
    ensures StrLe(a, b) <==> Value(Decimal, a) <= Value(Decimal, b)
  {
    ShapeValue(a, ip, dp);
    ShapeValue(b, ip, dp);
    DropPoint(a, b, ip, dp);
    var (da, db) := (Digits(a, ip, dp), Digits(b, ip, dp));
    DigitOrder(da, db);
    RatioOrder(NatValue(da), NatValue(db), Pow10(dp));
  }

  /** Prices as exchanges write them: dp decimals and no superfluous leading zero. */
  predicate Canonical(s: string, ip: nat, dp: nat) {
    Shape(s, ip, dp) && ip > 0 && (ip > 1 ==> s[0] != '0')
  }

  // ------------------------------------------------- whole parts of different width

  lemma LeadingDigits(s: string, ip: nat, dp: nat, k: nat)
    requires Shape(s, ip, dp) && k <= ip
    ensures AllDigits(s[..k])
  {
    forall i | 0 <= i < k
      ensures IsDigit(s[i])
    {
      assert s[i] == s[..ip][i];
    }
  }

  /** Across widths the shorter price is below the longer one as a string exactly when its
      whole part is at most the number formed by as many leading digits of the longer one. */
  lemma MixedWidthStringOrder(a: string, b: string, m: nat, dp: nat, n: nat, dq: nat)
    requires Shape(a, m, dp) && Shape(b, n, dq) && m < n
    ensures AllDigits(a[..m]) && AllDigits(b[..m])
    ensures StrLe(a, b) <==> NatValue(a[..m]) <= NatValue(b[..m])
  {
    var (x, y) := (a[m..], b[m..]);
    LeadingDigits(a, m, dp, m);
    LeadingDigits(b, n, dq, m + 1);
    assert b[..m + 1][..m] == b[..m] && b[..m + 1][m] == b[m];
    StrLeSplit(a[..m], b[..m], x, y);
    assert a == a[..m] + x && b == b[..m] + y;
    DigitOrder(a[..m], b[..m]);
  }

  lemma {:induction false} PowSum(m: nat, n: nat)
    ensures Pow10(m + n) == Pow10(m) * Pow10(n)
  {
    if m == 0 {
    } else {
      PowSum(m - 1, n);
      TimesTen(Pow10(m - 1), Pow10(n));
    }
  }

  lemma TimesTen(x: nat, y: nat)
    ensures 10 * (x * y) == (10 * x) * y
  {
  }

  lemma {:induction false} PowMonotone(m: nat, n: nat)
    requires m <= n
    ensures Pow10(m) <= Pow10(n)
  {
    if m == n {
    } else {
      PowMonotone(m, n - 1);
    }
  }

  lemma RatioBound(x: nat, k: nat, p: nat)
    requires p > 0
    ensures Ratio(x, p) < k as real <==> x < k * p
  {
    var (r, q) := (Ratio(x, p), p as real);
    DivideBack(x as real, q);
    ScaleOrder(k as real, r, q);
    assert k as real * q == (k * p) as real;
  }

  lemma DivideBack(x: real, q: real)
    requires q > 0.0
    ensures x / q * q == x
  {
  }

  /** A price with m whole digits is below 10^m. */
  lemma WholeBelow(s: string, ip: nat, dp: nat)
    requires Shape(s, ip, dp)
    ensures Value(Decimal, s) < Pow10(ip) as real
  {
    ShapeValue(s, ip, dp);
    PowSum(ip, dp);
    RatioBound(NatValue(Digits(s, ip, dp)), Pow10(ip), Pow10(dp));
  }

  lemma LeadingNonzero(digits: string)
    requires digits != [] && AllDigits(digits) && digits[0] != '0'
    ensures NatValue(digits) >= Pow10(|digits| - 1)
  {
  }

  /** A price with n whole digits, the first of them not 0, is at least 10^(n-1). */
  lemma WholeAtLeast(s: string, ip: nat, dp: nat)
    requires Shape(s, ip, dp) && ip > 0 && s[0] != '0'
    ensures Value(Decimal, s) >= Pow10(ip - 1) as real
  {
    var digits := Digits(s, ip, dp);
    ShapeValue(s, ip, dp);
    LeadingDigits(s, ip, dp, ip);
    assert digits[0] == s[..ip][0] == s[0];
    LeadingNonzero(digits);
    PowSum(ip - 1, dp);
    RatioBound(NatValue(digits), Pow10(ip - 1), Pow10(dp));
  }

  /** A canonical price with fewer whole digits is the smaller number, whatever the decimals. */
  lemma MixedWidthNumericOrder(a: string, b: string, m: nat, dp: nat, n: nat, dq: nat)
    requires Canonical(a, m, dp) && Canonical(b, n, dq) && m < n
    ensures Value(Decimal, a) < Value(Decimal, b)
  {
    PowMonotone(m, n - 1);
    BelowAtLeast(a, m, dp, b, n, dq);
  }

  lemma BelowAtLeast(a: string, m: nat, dp: nat, b: string, n: nat, dq: nat)
    requires Shape(a, m, dp) && Shape(b, n, dq) && n > 0 && b[0] != '0' && Pow10(m) <= Pow10(n - 1)
    ensures Value(Decimal, a) < Value(Decimal, b)
  {
    WholeBelow(a, m, dp);
    WholeAtLeast(b, n, dq);
    var (x, y) := (Value(Decimal, a), Value(Decimal, b));
    assert x < Pow10(m) as real <= Pow10(n - 1) as real <= y;
  }

  function Repeat(c: char, n: nat): (s: string)
    ensures |s| == n && forall i :: 0 <= i < n ==> s[i] == c
  {
    seq(n, i => c)
  }

  /** A price with these digits before and after the point. */
  function Written(whole: string, fraction: string): (s: string)
    requires AllDigits(whole) && AllDigits(fraction) && whole != []
    ensures Shape(s, |whole|, |fraction|) && s[0] == whole[0]
  {
    if fraction == [] then whole else
      var s := whole + "." + fraction;
      assert s[..|whole|] == whole && s[|whole| + 1..] == fraction;
      s
  }

  /** For each pair of widths, prices on which the two orders disagree: 9..9 against 10..0. */
  lemma MixedWidthDisagrees(m: nat, dp: nat, n: nat, dq: nat) returns (a: string, b: string)
    requires 0 < m < n
    ensures Canonical(a, m, dp) && Canonical(b, n, dq)
    ensures Value(Decimal, a) < Value(Decimal, b) && !StrLe(a, b)
  {
    a := Written(Repeat('9', m), Repeat('0', dp));
    b := Written("1" + Repeat('0', n - 1), Repeat('0', dq));
    MixedWidthNumericOrder(a, b, m, dp, n, dq);
  }

  // ------------------------------------------------------ different numbers of decimals

  /** Read from the other end: one more digit multiplies by ten and adds the digit. */
  lemma {:induction false} AppendDigit(s: string, c: char)
    requires AllDigits(s) && '0' <= c <= '9'
    ensures AllDigits(s + [c]) && NatValue(s + [c]) == 10 * NatValue(s) + (c as int - '0' as int)
  {
    if s == [] {
      assert s + [c] == [c] && [c][1..] == [];
    } else {
      assert (s + [c])[1..] == s[1..] + [c] && (s + [c])[0] == s[0];
      AppendDigit(s[1..], c);
      PrependTen(Digit(s[0]), Pow10(|s| - 1), NatValue(s[1..]), Digit(c));
    }
  }

  lemma PrependTen(digit: nat, power: nat, rest: nat, last: nat)
    ensures Prepend(digit, 10 * power, 10 * rest + last) == 10 * Prepend(digit, power, rest) + last
  {
  }

  lemma RatioTen(x: nat, p: nat)
    requires p > 0
    ensures Ratio(10 * x, 10 * p) == Ratio(x, p)
  {
    CancelTen(x as real, p as real);
  }

  lemma CancelTen(x: real, p: real)
    requires p > 0.0
    ensures (10.0 * x) / (10.0 * p) == x / p
  {
    var r := x / p;
    assert r * p == x;
    assert r * (10.0 * p) == 10.0 * x;
  }

  /** A price with one more 0 behind it; the first one brings the point along. */
  function Extend(s: string, dp: nat): string {
    if dp == 0 then s + ".0" else s + "0"
  }

  lemma ShapeExtends(s: string, ip: nat, dp: nat)
    requires Shape(s, ip, dp)
    ensures Shape(Extend(s, dp), ip, dp + 1)
    ensures Digits(Extend(s, dp), ip, dp + 1) == Digits(s, ip, dp) + "0"
  {
    var t := Extend(s, dp);
    if dp == 0 {
      assert t[..ip] == s && t[ip + 1..] == "0";
    } else {
      assert t[..ip] == s[..ip] && t[ip + 1..] == s[ip + 1..] + "0";
    }
  }

  lemma RatioAppendZero(digits: string, dp: nat)
    requires AllDigits(digits)
    ensures AllDigits(digits + "0")
    ensures Ratio(NatValue(digits + "0"), Pow10(dp + 1)) == Ratio(NatValue(digits), Pow10(dp))
  {
    AppendDigit(digits, '0');
    RatioTen(NatValue(digits), Pow10(dp));
  }

  lemma ExtendNumber(s: string, ip: nat, dp: nat)
    requires Shape(s, ip, dp)
    ensures Shape(Extend(s, dp), ip, dp + 1)
    ensures Number(Extend(s, dp), ip, dp + 1) == Number(s, ip, dp)
  {
    ShapeExtends(s, ip, dp);
    RatioAppendZero(Digits(s, ip, dp), dp);
  }

  /** A trailing zero changes the string and not the number. */
  lemma TrailingZero(s: string, ip: nat, dp: nat)
    requires Shape(s, ip, dp)
    ensures Shape(Extend(s, dp), ip, dp + 1) && Decimal(Extend(s, dp)) == Decimal(s)
  {
    ExtendNumber(s, ip, dp);
    ShapeValue(s, ip, dp);
    ShapeValue(Extend(s, dp), ip, dp + 1);
  }

  lemma {:induction false} TrailingZeros(s: string, ip: nat, dp: nat, dq: nat) returns (t: string)
    requires Shape(s, ip, dp) && dp <= dq
    ensures Shape(t, ip, dq) && Decimal(t) == Decimal(s) && s <= t
    decreases dq
  {
    if dq == dp {
      t := s;
    } else {
      var shorter := TrailingZeros(s, ip, dp, dq - 1);
      TrailingZero(shorter, ip, dq - 1);
      t := Extend(shorter, dq - 1);
    }
  }

  /** With different numbers of decimals one number has two strings, of which one is the larger. */
  lemma MixedDecimalsDisagree(ip: nat, dp: nat, dq: nat) returns (a: string, b: string)
    requires ip > 0 && dp < dq
    ensures Canonical(a, ip, dp) && Canonical(b, ip, dq)
    ensures Value(Decimal, a) == Value(Decimal, b) && !StrLe(b, a)
  {
    a := Written(Repeat('1', ip), Repeat('0', dp));
    b := TrailingZeros(a, ip, dp, dq);
    assert |a| < |b| && a[0] == '1';
    PrefixSmaller(a, b);
  }

  // ------------------------------------------------------------------------ formats

  /** How prices are written. */
  datatype Format = Format(whole: nat, decimals: nat)

  ghost predicate WrittenInOne(s: string, formats: iset<Format>) {
    exists f :: f in formats && Canonical(s, f.whole, f.decimals)
  }

  /** The prices written in one of the formats. */
  ghost function PricesOf(formats: iset<Format>): iset<string> {
    iset s | WrittenInOne(s, formats)
  }

  ghost predicate ProperFormats(formats: iset<Format>) {
    forall f :: f in formats ==> f.whole > 0
  }

  ghost predicate AtMostOneFormat(formats: iset<Format>) {
    forall f, g :: f in formats && g in formats ==> f == g
  }

  lemma FormatsDisagree(f: Format, g: Format) returns (a: string, b: string)
    requires f.whole > 0 && g.whole > 0 && f != g
    ensures a in PricesOf(iset{f, g}) && b in PricesOf(iset{f, g})
    ensures !(StrLe(a, b) <==> Value(Decimal, a) <= Value(Decimal, b))
  {
    assert f in iset{f, g} && g in iset{f, g};
    if f.whole < g.whole {
      a, b := MixedWidthDisagrees(f.whole, f.decimals, g.whole, g.decimals);
    } else if g.whole < f.whole {
      a, b := MixedWidthDisagrees(g.whole, g.decimals, f.whole, f.decimals);
    } else if f.decimals < g.decimals {
      b, a := MixedDecimalsDisagree(f.whole, f.decimals, g.decimals);
    } else {
      b, a := MixedDecimalsDisagree(f.whole, g.decimals, f.decimals);
    }
  }

  lemma PricesMonotone(formats: iset<Format>, more: iset<Format>, s: string)
    requires formats <= more && s in PricesOf(formats)
    ensures s in PricesOf(more)
  {
  }

  /** Prices written in a set of formats are ordered alike by strings and numbers exactly when there are
      no two formats in the set that differ in whole digits or in decimals. */
  lemma FormatsCoherentIff(formats: iset<Format>)
    requires ProperFormats(formats)
    ensures Coherent(Decimal, PricesOf(formats)) <==> AtMostOneFormat(formats)
  {
    if f, g :| f in formats && g in formats && f != g {
      var a, b := FormatsDisagree(f, g);
      PricesMonotone(iset{f, g}, formats, a);
      PricesMonotone(iset{f, g}, formats, b);
    } else {
      forall a, b | WrittenInOne(a, formats) && WrittenInOne(b, formats)
        ensures StrLe(a, b) <==> Value(Decimal, a) <= Value(Decimal, b)
      {
        var f :| f in formats && Canonical(a, f.whole, f.decimals);
        CommonWidthOrder(a, b, f.whole, f.decimals);
      }
    }
  }

  lemma SomeLiveQty() returns (qty: string)
    ensures Decimal(qty).Some? && Decimal(qty).value != 0.0
  {
    qty := "1";
    WholeAtLeast(qty, 1, 0);
    ShapeValue(qty, 1, 0);
  }
}
