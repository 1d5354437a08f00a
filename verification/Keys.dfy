/** The string keys of the outgoing messages: a gateway's text, an underscore, and the
    nonce padded with zeros to 20 digits. They are ordered as strings by the polling
    code and by the certification tree; this module proves what that order means. */
module Keys {
  import opened Types

  const KEY_DIGITS: nat := 20

  function Digit(d: nat): (c: char)
    requires d < 10
    ensures c as int == 48 + d
  {
    (48 + d) as char
  }

  function DigitValue(c: char): nat {
    if '0' <= c <= '9' then c as int - 48 else 0
  }

  /** The decimal text of a number, without leading zeros. */
  function Decimal(n: nat): string {
    if n < 10 then [Digit(n)] else Decimal(n / 10) + [Digit(n % 10)]
  }

  function ParseDecimal(s: string): nat {
    if s == [] then 0 else 10 * ParseDecimal(s[..|s| - 1]) + DigitValue(s[|s| - 1])
  }

  function PadLeft(s: string, width: nat): string
    decreases width - |s|
  {
    if |s| >= width then s else PadLeft("0" + s, width)
  }

  function Format(gateway: Principal, nonce: nat): string {
    gateway.text + "_" + PadLeft(Decimal(nonce), KEY_DIGITS)
  }

  /** How a gateway reads a key back: the text before the underscore and the number after it. */
  function ParseKey(s: string): Option<(Principal, nat)> {
    var i := SeparatorIndex(s);
    if i < |s| && (forall k :: 0 <= k < i ==> IsPrincipalChar(s[k])) then
      Some((Principal(s[..i]), ParseDecimal(s[i + 1..])))
    else
      None
  }

  function SeparatorIndex(s: string): (i: nat)
    ensures i <= |s|
    ensures i < |s| ==> s[i] == '_'
    ensures forall k :: 0 <= k < i ==> s[k] != '_'
  {
    if s == [] || s[0] == '_' then 0 else 1 + SeparatorIndex(s[1..])
  }

  /** Byte-wise string order. */
  predicate LexLess(a: string, b: string) {
    b != [] && (a == [] || a[0] < b[0] || (a[0] == b[0] && LexLess(a[1..], b[1..])))
  }

  // ---- reading keys back ----

  lemma {:induction false} DecimalRoundTrip(n: nat)
    ensures ParseDecimal(Decimal(n)) == n
  {
    if n < 10 {
      assert Decimal(n)[..0] == [];
    } else {
      DecimalRoundTrip(n / 10);
      assert Decimal(n)[..|Decimal(n)| - 1] == Decimal(n / 10);
    }
  }

  lemma {:induction false} LeadingZero(s: string)
    ensures ParseDecimal("0" + s) == ParseDecimal(s)
  {
    if s == [] {
      assert ("0" + s)[..0] == [];
    } else {
      LeadingZero(s[..|s| - 1]);
      assert ("0" + s)[..|s|] == "0" + s[..|s| - 1];
    }
  }

  lemma {:induction false} PaddingKeepsValue(s: string, width: nat)
    ensures ParseDecimal(PadLeft(s, width)) == ParseDecimal(s)
    decreases width - |s|
  {
    if |s| < width {
      PaddingKeepsValue("0" + s, width);
      LeadingZero(s);
    }
  }

  /** Keys are injective: gateway and nonce are both read back, whatever the nonce. */
  lemma ParseFormat(gateway: Principal, nonce: nat)
    ensures ParseKey(Format(gateway, nonce)) == Some((gateway, nonce))
  {
    var digits := PadLeft(Decimal(nonce), KEY_DIGITS);
    var s := Format(gateway, nonce);
    var n := |gateway.text|;
    assert forall k :: 0 <= k < n ==> s[k] == gateway.text[k] && IsPrincipalChar(s[k]);
    assert s[n] == '_';
    assert SeparatorIndex(s) == n;
    assert s[..n] == gateway.text && s[n + 1..] == digits;
    PaddingKeepsValue(Decimal(nonce), KEY_DIGITS);
    DecimalRoundTrip(nonce);
  }

  lemma AllKeysParse()
    ensures forall g: Principal, i: nat :: ParseKey(Format(g, i)) == Some((g, i))
  {
    forall g: Principal, i: nat ensures ParseKey(Format(g, i)) == Some((g, i)) {
      ParseFormat(g, i);
    }
  }

  // ---- order of the digits ----

  function Power10(w: nat): nat {
    if w == 0 then 1 else 10 * Power10(w - 1)
  }

  /** The last `w` digits of `n`. */
  function FixedWidth(n: nat, w: nat): (s: string)
    ensures |s| == w
  {
    if w == 0 then [] else FixedWidth(n / 10, w - 1) + [Digit(n % 10)]
  }

  lemma {:induction false} ZerosInFront(w: nat)
    ensures FixedWidth(0, w + 1) == "0" + FixedWidth(0, w)
  {
    if w > 0 {
      ZerosInFront(w - 1);
      assert FixedWidth(0, w + 1) == FixedWidth(0, w) + [Digit(0)];
    }
  }

  lemma {:induction false} FixedWidthGrows(n: nat, w: nat)
    requires n < Power10(w)
    ensures FixedWidth(n, w + 1) == "0" + FixedWidth(n, w)
  {
    if w == 0 {
      ZerosInFront(0);
    } else {
      FixedWidthGrows(n / 10, w - 1);
    }
  }

  lemma {:induction false} DecimalIsFixedWidth(n: nat)
    ensures |Decimal(n)| >= 1 && n < Power10(|Decimal(n)|)
    ensures Decimal(n) == FixedWidth(n, |Decimal(n)|)
  {
    if n < 10 {
      assert FixedWidth(n, 1) == FixedWidth(n / 10, 0) + [Digit(n % 10)];
      assert Power10(1) == 10 * Power10(0);
    } else {
      DecimalIsFixedWidth(n / 10);
    }
  }

  lemma {:induction false} DecimalNoLonger(n: nat, w: nat)
    requires w >= 1 && n < Power10(w)
    ensures |Decimal(n)| <= w
  {
    if n >= 10 {
      assert Power10(1) == 10 * Power10(0) == 10;
      DecimalNoLonger(n / 10, w - 1);
    }
  }

  lemma {:induction false} PaddedIsFixedWidth(n: nat, have: nat, width: nat)
    requires n < Power10(have) && have <= width
    ensures PadLeft(FixedWidth(n, have), width) == FixedWidth(n, width)
    decreases width - have
  {
    if have < width {
      FixedWidthGrows(n, have);
      PaddedIsFixedWidth(n, have + 1, width);
    }
  }

  lemma {:induction false} LexLessLast(x: string, c: char, y: string, d: char)
    requires |x| == |y|
    ensures LexLess(x + [c], y + [d]) <==> LexLess(x, y) || (x == y && c < d)
  {
    if x != [] {
      LexLessLast(x[1..], c, y[1..], d);
      assert (x + [c])[1..] == x[1..] + [c] && (y + [d])[1..] == y[1..] + [d];
      assert x == y <==> x[0] == y[0] && x[1..] == y[1..];
    }
  }

  lemma {:induction false} FixedWidthInjective(a: nat, b: nat, w: nat)
    requires a < Power10(w) && b < Power10(w) && FixedWidth(a, w) == FixedWidth(b, w)
    ensures a == b
  {
    if w > 0 {
      var x, y := FixedWidth(a, w), FixedWidth(b, w);
      assert x[..w - 1] == FixedWidth(a / 10, w - 1) && y[..w - 1] == FixedWidth(b / 10, w - 1);
      FixedWidthInjective(a / 10, b / 10, w - 1);
      assert x[w - 1] == Digit(a % 10) && y[w - 1] == Digit(b % 10);
    }
  }

  lemma {:induction false} FixedWidthOrder(a: nat, b: nat, w: nat)
    requires a < Power10(w) && b < Power10(w)
    ensures LexLess(FixedWidth(a, w), FixedWidth(b, w)) <==> a < b
  {
    if w > 0 {
      FixedWidthOrder(a / 10, b / 10, w - 1);
      var x, y := FixedWidth(a / 10, w - 1), FixedWidth(b / 10, w - 1);
      LexLessLast(x, Digit(a % 10), y, Digit(b % 10));
      if x == y {
        FixedWidthInjective(a / 10, b / 10, w - 1);
      }
    }
  }

  lemma U64FitsKeyDigits()
    ensures U64_SIZE < Power10(KEY_DIGITS)
  {
    assert Power10(5) == 100_000 by {
      assert Power10(3) == 1000;
    }
    assert Power10(10) == 10_000_000_000 by {
      assert Power10(7) == 10_000_000 && Power10(9) == 1_000_000_000;
    }
    assert Power10(15) == 1_000_000_000_000_000 by {
      assert Power10(12) == 1_000_000_000_000 && Power10(14) == 100_000_000_000_000;
    }
    assert Power10(17) == 100_000_000_000_000_000 && Power10(19) == 10_000_000_000_000_000_000;
  }

  lemma PaddedOrder(a: nat, b: nat)
    requires a <= U64_SIZE && b <= U64_SIZE
    ensures LexLess(PadLeft(Decimal(a), KEY_DIGITS), PadLeft(Decimal(b), KEY_DIGITS)) <==> a < b
  {
    U64FitsKeyDigits();
    forall n: nat | n == a || n == b
      ensures PadLeft(Decimal(n), KEY_DIGITS) == FixedWidth(n, KEY_DIGITS)
    {
      DecimalIsFixedWidth(n);
      DecimalNoLonger(n, KEY_DIGITS);
      PaddedIsFixedWidth(n, |Decimal(n)|, KEY_DIGITS);
    }
    FixedWidthOrder(a, b, KEY_DIGITS);
  }

  // ---- order of whole keys ----

  lemma {:induction false} CommonPrefix(p: string, a: string, b: string)
    ensures LexLess(p + a, p + b) <==> LexLess(a, b)
  {
    if p == [] {
      assert p + a == a && p + b == b;
    } else {
      CommonPrefix(p[1..], a, b);
      assert (p + a)[1..] == p[1..] + a && (p + b)[1..] == p[1..] + b;
    }
  }

  /** Among one gateway's keys the order of strings is the order of nonces. */
  lemma SameGatewayOrder(gateway: Principal, a: nat, b: nat)
    requires a <= U64_SIZE && b <= U64_SIZE
    ensures LexLess(Format(gateway, a), Format(gateway, b)) <==> a < b
  {
    CommonPrefix(gateway.text + "_", PadLeft(Decimal(a), KEY_DIGITS), PadLeft(Decimal(b), KEY_DIGITS));
    PaddedOrder(a, b);
  }

  /** Different prefixes without an underscore separate keys, whatever follows. */
  lemma {:induction false} PrefixSeparates(g: string, h: string, x: string, y: string)
    requires g != h && '_' !in g && '_' !in h
    ensures LexLess(g + "_" + x, h + "_" + y) <==> LexLess(g + "_", h + "_")
    ensures LexLess(g + "_", h + "_") <==> !LexLess(h + "_", g + "_")
  {
    var gx, hy := g + "_" + x, h + "_" + y;
    assert (g + "_")[0] == gx[0] && (h + "_")[0] == hy[0];
    if g == [] {
      assert h[0] in h && gx[0] == '_' && hy[0] == h[0];
    } else if h == [] {
      assert g[0] in g && hy[0] == '_' && gx[0] == g[0];
    } else {
      assert gx[0] == g[0] && hy[0] == h[0];
      if g[0] == h[0] {
        assert g == [g[0]] + g[1..] && h == [h[0]] + h[1..];
        PrefixSeparates(g[1..], h[1..], x, y);
        assert gx[1..] == g[1..] + "_" + x && hy[1..] == h[1..] + "_" + y;
        assert (g + "_")[1..] == g[1..] + "_" && (h + "_")[1..] == h[1..] + "_";
      }
    }
  }

  predicate InKeyRange(s: string, first: string, last: string) {
    !LexLess(s, first) && !LexLess(last, s)
  }

  /** A key of any gateway lies in the inclusive range between two keys of one gateway
      exactly when it is that gateway's and its nonce lies between theirs. */
  lemma KeyRange(gateway: Principal, first: nat, last: nat, g: Principal, nonce: nat)
    requires first <= last <= U64_SIZE && (g == gateway ==> nonce <= U64_SIZE)
    ensures InKeyRange(Format(g, nonce), Format(gateway, first), Format(gateway, last))
       <==> g == gateway && first <= nonce <= last
  {
    if g == gateway {
      SameGatewayOrder(gateway, nonce, first);
      SameGatewayOrder(gateway, last, nonce);
    } else {
      assert g.text != gateway.text && '_' !in g.text && '_' !in gateway.text;
      var x, a, b := PadLeft(Decimal(nonce), KEY_DIGITS), PadLeft(Decimal(first), KEY_DIGITS),
        PadLeft(Decimal(last), KEY_DIGITS);
      PrefixSeparates(g.text, gateway.text, x, a);
      PrefixSeparates(gateway.text, g.text, b, x);
    }
  }

  lemma {:induction false} PaddedLength(s: string, width: nat)
    requires |s| <= width
    ensures |PadLeft(s, width)| == width
    decreases width - |s|
  {
    if |s| < width {
      PaddedLength("0" + s, width);
    }
  }

  /** A key is the gateway's text, an underscore and exactly twenty digits. */
  lemma KeyLength(gateway: Principal, nonce: nat)
    requires nonce < 18_446_744_073_709_551_616
    ensures |Format(gateway, nonce)| == |gateway.text| + 21
  {
    U64FitsKeyDigits();
    DecimalNoLonger(nonce, KEY_DIGITS);
    PaddedLength(Decimal(nonce), KEY_DIGITS);
  }
}
