/** The interpolation and colour helpers that script.js and game.js define
    identically: `lerp`, `smoothstep`, `hexToRgb`, `lerpColor` and `random`.
    Numbers are exact reals; JavaScript's `parseInt(_, 16)` is modelled on
    strings of Unicode code points. */
module Blend {
  import opened Util

  /** The product of two non-negative reals is non-negative. */
  lemma MulNonneg(x: real, y: real)
    requires 0.0 <= x && 0.0 <= y
    ensures 0.0 <= x * y
  {
  }

  /** The product of two positive reals is positive. */
  lemma MulPos(x: real, y: real)
    requires 0.0 < x && 0.0 < y
    ensures 0.0 < x * y
  {
  }

  /** `lerp(a, b, t) = a + (b - a) * t`. */
  function Lerp(a: real, b: real, t: real): (r: real)
    ensures t == 0.0 ==> r == a
    ensures t == 1.0 ==> r == b
  {
    a + (b - a) * t
  }

  /** With a weight in [0, 1], `lerp` stays between its end points. */
  lemma LerpWithin(a: real, b: real, t: real, lo: real, hi: real)
    requires 0.0 <= t <= 1.0
    requires lo <= a <= hi && lo <= b <= hi
    ensures lo <= Lerp(a, b, t) <= hi
  {
    assert Lerp(a, b, t) - lo == (1.0 - t) * (a - lo) + t * (b - lo);
    assert hi - Lerp(a, b, t) == (1.0 - t) * (hi - a) + t * (hi - b);
    MulNonneg(1.0 - t, a - lo);
    MulNonneg(t, b - lo);
    MulNonneg(1.0 - t, hi - a);
    MulNonneg(t, hi - b);
  }

  /** A step `lerp(a, b, t)` with `t` in [0, 1] lands between `a` and `b` and
      leaves exactly the fraction `1 - t` of the distance to `b`. */
  lemma LerpApproaches(a: real, b: real, t: real)
    requires 0.0 <= t <= 1.0
    ensures RealMin(a, b) <= Lerp(a, b, t) <= RealMax(a, b)
    ensures b - Lerp(a, b, t) == (1.0 - t) * (b - a)
  {
    LerpWithin(a, b, t, RealMin(a, b), RealMax(a, b));
  }

  /** `smoothstep(t) = t * t * (3 - 2 * t)` (no clamping of its argument). */
  function Smoothstep(t: real): (r: real)
    ensures t == 0.0 ==> r == 0.0
    ensures t == 1.0 ==> r == 1.0
    ensures t == 0.5 ==> r == 0.5
  {
    t * t * (3.0 - 2.0 * t)
  }

  /** On [0, 1] smoothstep stays in [0, 1]. */
  lemma SmoothstepUnit(t: real)
    requires 0.0 <= t <= 1.0
    ensures 0.0 <= Smoothstep(t) <= 1.0
  {
    MulNonneg(t, t);
    MulNonneg(t * t, 3.0 - 2.0 * t);
    assert 1.0 - Smoothstep(t) == (1.0 - t) * (1.0 - t) * (1.0 + 2.0 * t);
    MulNonneg(1.0 - t, 1.0 - t);
    MulNonneg((1.0 - t) * (1.0 - t), 1.0 + 2.0 * t);
  }

  /** On [0, 1] smoothstep is non-decreasing. */
  lemma SmoothstepMonotone(a: real, b: real)
    requires 0.0 <= a <= b <= 1.0
    ensures Smoothstep(a) <= Smoothstep(b)
  {
    var k := a * (3.0 - 2.0 * a - b) + b * (3.0 - 2.0 * b - a);
    assert Smoothstep(b) - Smoothstep(a) == (b - a) * k;
    MulNonneg(a, 3.0 - 2.0 * a - b);
    MulNonneg(b, 3.0 - 2.0 * b - a);
    MulNonneg(b - a, k);
  }

  /** Beyond 1.5 smoothstep is negative: the unclamped argument of script.js
      drives the theme blend outside [0, 1]. */
  lemma SmoothstepNegativePastThreeHalves(t: real)
    requires t > 1.5
    ensures Smoothstep(t) < 0.0
  {
    assert t * t > 0.0;
    assert 3.0 - 2.0 * t < 0.0;
    assert t * t * (3.0 - 2.0 * t) < 0.0;
  }

  /** `random(min, max) = Math.random() * (max - min) + min`, with the draw `u`
      of `Math.random()` passed in. */
  function RandomIn(u: real, min: real, max: real): (r: real)
    ensures 0.0 <= u < 1.0 && min < max ==> min <= r < max
    ensures min == max ==> r == min
  {
    var span := max - min;
    if 0.0 <= u < 1.0 && 0.0 < span then
      ScaledBelow(u, span);
      u * span + min
    else
      assert span == 0.0 ==> u * span == 0.0;
      u * span + min
  }

  /** A fraction `u` in [0, 1) of a positive `k` lies in [0, k). */
  lemma ScaledBelow(u: real, k: real)
    requires 0.0 <= u < 1.0 && 0.0 < k
    ensures 0.0 <= u * k < k
  {
    MulNonneg(u, k);
    MulPos(1.0 - u, k);
    assert (1.0 - u) * k == k - u * k;
  }

  /** `Math.round`: the nearest integer, halves rounded towards +infinity. */
  function Round(x: real): (n: int)
    ensures n as real - 0.5 <= x < n as real + 0.5
  {
    (x + 0.5).Floor
  }

  /** `Math.round` leaves integers unchanged. */
  lemma RoundInteger(n: int)
    ensures Round(n as real) == n
  {
  }

  // ---------------------------------------------------------------------
  // parseInt(s, 16), as ECMAScript defines it (section 19.2.5 of ECMA-262)

  /** StrWhiteSpaceChar: WhiteSpace (tab, vertical tab, form feed, ZWNBSP and
      every Zs space) and LineTerminator (LF, CR, LS, PS). */
  predicate IsStrWhiteSpace(c: char)
  {
    c == '\t' || c == '\U{B}' || c == '\U{C}' || c == '\U{FEFF}'
    || c == ' ' || c == '\U{A0}' || c == '\U{1680}' || ('\U{2000}' <= c <= '\U{200A}')
    || c == '\U{202F}' || c == '\U{205F}' || c == '\U{3000}'
    || c == '\n' || c == '\r' || c == '\U{2028}' || c == '\U{2029}'
  }

  predicate IsHexDigit(c: char)
  {
    ('0' <= c <= '9') || ('a' <= c <= 'f') || ('A' <= c <= 'F')
  }

  function DigitValue(c: char): (d: int)
    requires IsHexDigit(c)
    ensures 0 <= d < 16
  {
    if '0' <= c <= '9' then c as int - '0' as int
    else if 'a' <= c <= 'f' then c as int - 'a' as int + 10
    else c as int - 'A' as int + 10
  }

  /** Leading white space removed, and nothing else. */
  function TrimStart(s: string): (r: string)
    ensures r == [] || !IsStrWhiteSpace(r[0])
    ensures |r| <= |s| && r == s[|s| - |r|..]
    ensures forall i :: 0 <= i < |s| - |r| ==> IsStrWhiteSpace(s[i])
  {
    if s != [] && IsStrWhiteSpace(s[0]) then TrimStart(s[1..]) else s
  }

  /** Length of the longest prefix made of hexadecimal digits. */
  function HexRunLength(s: string): (n: nat)
    ensures n <= |s|
    ensures forall i :: 0 <= i < n ==> IsHexDigit(s[i])
    ensures n < |s| ==> !IsHexDigit(s[n])
  {
    if s != [] && IsHexDigit(s[0]) then 1 + HexRunLength(s[1..]) else 0
  }

  /** The integer that a string of hexadecimal digits denotes. */
  function HexValue(ds: string): (v: nat)
    requires forall i :: 0 <= i < |ds| ==> IsHexDigit(ds[i])
  {
    if ds == [] then 0 else HexValue(ds[..|ds| - 1]) * 16 + DigitValue(ds[|ds| - 1])
  }

  /** `parseInt(s, 16)`; `None` stands for NaN (no digit found). */
  function ParseIntHex(s: string): (r: Option<int>)
    ensures r.Some? <==> HexRunLength(StripHexPrefix(StripSign(TrimStart(s)))) > 0
  {
    var trimmed := TrimStart(s);
    var body := StripHexPrefix(StripSign(trimmed));
    var n := HexRunLength(body);
    if n == 0 then None
    else
      var magnitude: int := HexValue(body[..n]);
      Some(if trimmed != [] && trimmed[0] == '-' then -magnitude else magnitude)
  }

  function StripSign(s: string): string
  {
    if s != [] && (s[0] == '+' || s[0] == '-') then s[1..] else s
  }

  /** With radix 16 a leading "0x" or "0X" is skipped. */
  function StripHexPrefix(s: string): string
  {
    if |s| >= 2 && s[0] == '0' && (s[1] == 'x' || s[1] == 'X') then s[2..] else s
  }

  // ---------------------------------------------------------------------
  // Colours

  datatype Rgb = Rgb(r: int, g: int, b: int)

  predicate IsChannel(v: int) { 0 <= v <= 255 }

  predicate IsColor(c: Rgb) { IsChannel(c.r) && IsChannel(c.g) && IsChannel(c.b) }

  /** `String.prototype.slice(1)`. */
  function DropFirst(s: string): string { if s == [] then [] else s[1..] }

  /** `hexToRgb`: parse everything after the first character as base 16, then
      take bits 16..23, 8..15 and 0..7 (`(v >> 16) & 255` and so on; on the
      32-bit integer these are Euclidean division and remainder). NaN reads
      as 0, so a string without digits gives black. */
  function HexToRgb(hex: string): (c: Rgb)
    ensures IsColor(c)
    ensures ParseIntHex(DropFirst(hex)).None? ==> c == Rgb(0, 0, 0)
  {
    match ParseIntHex(DropFirst(hex))
    case None => Rgb(0, 0, 0)
    case Some(v) => Rgb((v / 65536) % 256, (v / 256) % 256, v % 256)
  }

  /** `lerpColor`: component-wise `lerp` of the two parsed colours, each
      rounded with `Math.round`. The `rgb(r,g,b)` text the source builds from
      these three numbers is represented by the triple itself. */
  function LerpColor(c1: string, c2: string, t: real): (c: Rgb)
  {
    var a := HexToRgb(c1);
    var b := HexToRgb(c2);
    Rgb(Round(Lerp(a.r as real, b.r as real, t)),
        Round(Lerp(a.g as real, b.g as real, t)),
        Round(Lerp(a.b as real, b.b as real, t)))
  }

  /** At the end points the blend is exactly one of the two colours. */
  lemma LerpColorEnds(c1: string, c2: string)
    ensures LerpColor(c1, c2, 0.0) == HexToRgb(c1)
    ensures LerpColor(c1, c2, 1.0) == HexToRgb(c2)
  {
    var a, b := HexToRgb(c1), HexToRgb(c2);
    RoundInteger(a.r); RoundInteger(a.g); RoundInteger(a.b);
    RoundInteger(b.r); RoundInteger(b.g); RoundInteger(b.b);
    assert LerpColor(c1, c2, 0.0) == Rgb(Round(a.r as real), Round(a.g as real), Round(a.b as real));
    assert LerpColor(c1, c2, 1.0) == Rgb(Round(b.r as real), Round(b.g as real), Round(b.b as real));
  }

  /** For a weight in [0, 1] every blended channel stays in [0, 255]. */
  lemma LerpColorIsColor(c1: string, c2: string, t: real)
    requires 0.0 <= t <= 1.0
    ensures IsColor(LerpColor(c1, c2, t))
  {
    var a := HexToRgb(c1);
    var b := HexToRgb(c2);
    LerpWithin(a.r as real, b.r as real, t, 0.0, 255.0);
    LerpWithin(a.g as real, b.g as real, t, 0.0, 255.0);
    LerpWithin(a.b as real, b.b as real, t, 0.0, 255.0);
  }

  // ---------------------------------------------------------------------
  // "#rrggbb" and its inverse

  function HexDigitChar(d: int): (c: char)
    requires 0 <= d < 16
    ensures IsHexDigit(c) && DigitValue(c) == d
  {
    if d < 10 then ('0' as int + d) as char else ('a' as int + d - 10) as char
  }

  /** The `#rrggbb` spelling of a colour, as every theme colour is written. */
  function ToHex(c: Rgb): (s: string)
    requires IsColor(c)
    ensures |s| == 7 && s[0] == '#'
  {
    ['#', HexDigitChar(c.r / 16), HexDigitChar(c.r % 16),
          HexDigitChar(c.g / 16), HexDigitChar(c.g % 16),
          HexDigitChar(c.b / 16), HexDigitChar(c.b % 16)]
  }

  lemma HexValueSnoc(ds: string, c: char)
    requires forall i :: 0 <= i < |ds| ==> IsHexDigit(ds[i])
    requires IsHexDigit(c)
    ensures HexValue(ds + [c]) == HexValue(ds) * 16 + DigitValue(c)
  {
    assert (ds + [c])[..|ds|] == ds;
  }

  /** A string made only of hexadecimal digits parses to its value. */
  lemma {:induction false} ParseAllDigits(ds: string)
    requires |ds| >= 1 && forall i :: 0 <= i < |ds| ==> IsHexDigit(ds[i])
    ensures ParseIntHex(ds) == Some(HexValue(ds))
  {
    assert !IsStrWhiteSpace(ds[0]);
    assert TrimStart(ds) == ds;
    assert StripSign(ds) == ds;
    assert |ds| >= 2 ==> ds[1] != 'x' && ds[1] != 'X';
    assert StripHexPrefix(ds) == ds;
    AllDigitsRun(ds);
    assert ds[..|ds|] == ds;
  }

  lemma {:induction false} AllDigitsRun(ds: string)
    requires forall i :: 0 <= i < |ds| ==> IsHexDigit(ds[i])
    ensures HexRunLength(ds) == |ds|
    decreases |ds|
  {
    if ds != [] {
      AllDigitsRun(ds[1..]);
    }
  }

  /** Two hexadecimal digits of a channel denote that channel. */
  lemma TwoDigits(v: int)
    requires IsChannel(v)
    ensures HexValue([HexDigitChar(v / 16), HexDigitChar(v % 16)]) == v
  {
    var hi, lo := HexDigitChar(v / 16), HexDigitChar(v % 16);
    var s := [hi, lo];
    assert s[..1] == [hi];
    assert [hi][..0] == [];
    assert HexValue([hi]) == v / 16;
    assert HexValue(s) == HexValue([hi]) * 16 + DigitValue(lo);
    assert v == (v / 16) * 16 + v % 16;
  }

  lemma HexValueAppendPair(ds: string, x: char, y: char)
    requires forall i :: 0 <= i < |ds| ==> IsHexDigit(ds[i])
    requires IsHexDigit(x) && IsHexDigit(y)
    ensures HexValue(ds + [x, y]) == HexValue(ds) * 256 + HexValue([x, y])
  {
    var s := ds + [x, y];
    assert s[..|s| - 1] == ds + [x] && s[|s| - 1] == y;
    var front := HexValue(ds + [x]);
    assert HexValue(s) == front * 16 + DigitValue(y);
    HexValueSnoc(ds, x);
    assert front == HexValue(ds) * 16 + DigitValue(x);
    var p := [x, y];
    assert p[..1] == [x] && [x][..0] == [];
    assert HexValue([x]) == DigitValue(x);
    assert HexValue(p) == DigitValue(x) * 16 + DigitValue(y);
  }

  /** Parsing `#rrggbb` gives back the three channels. */
  lemma {:induction false} HexRoundTrip(c: Rgb)
    requires IsColor(c)
    ensures HexToRgb(ToHex(c)) == c
  {
    var rs := [HexDigitChar(c.r / 16), HexDigitChar(c.r % 16)];
    var gs := [HexDigitChar(c.g / 16), HexDigitChar(c.g % 16)];
    var bs := [HexDigitChar(c.b / 16), HexDigitChar(c.b % 16)];
    var body := rs + gs + bs;
    var hex := ToHex(c);
    assert DropFirst(hex) == body;
    var v := SixDigitValue(rs, gs, bs, c);
    ParseAllDigits(body);
    HexToRgbOfValue(hex, v);
    ChannelsOf(v, c);
  }

  lemma HexToRgbOfValue(hex: string, v: int)
    requires ParseIntHex(DropFirst(hex)) == Some(v)
    ensures HexToRgb(hex) == Rgb((v / 65536) % 256, (v / 256) % 256, v % 256)
  {
  }

  lemma ChannelsOf(v: int, c: Rgb)
    requires IsColor(c) && v == (c.r * 256 + c.g) * 256 + c.b
    ensures Rgb((v / 65536) % 256, (v / 256) % 256, v % 256) == c
  {
    Channels(c.r, c.g, c.b);
  }

  lemma SixDigitValue(rs: string, gs: string, bs: string, c: Rgb) returns (v: int)
    requires IsColor(c)
    requires rs == [HexDigitChar(c.r / 16), HexDigitChar(c.r % 16)]
    requires gs == [HexDigitChar(c.g / 16), HexDigitChar(c.g % 16)]
    requires bs == [HexDigitChar(c.b / 16), HexDigitChar(c.b % 16)]
    ensures forall i :: 0 <= i < |rs + gs + bs| ==> IsHexDigit((rs + gs + bs)[i])
    ensures v == HexValue(rs + gs + bs) == (c.r * 256 + c.g) * 256 + c.b
  {
    TwoDigits(c.r);
    TwoDigits(c.g);
    TwoDigits(c.b);
    assert rs == [] + [rs[0], rs[1]];
    HexValueAppendPair([], rs[0], rs[1]);
    assert rs + gs == rs + [gs[0], gs[1]];
    HexValueAppendPair(rs, gs[0], gs[1]);
    assert rs + gs + bs == (rs + gs) + [bs[0], bs[1]];
    HexValueAppendPair(rs + gs, bs[0], bs[1]);
    v := HexValue(rs + gs + bs);
  }

  lemma Channels(r: int, g: int, b: int)
    requires IsChannel(r) && IsChannel(g) && IsChannel(b)
    ensures var v := (r * 256 + g) * 256 + b;
      (v / 65536) % 256 == r && (v / 256) % 256 == g && v % 256 == b
  {
    var v := (r * 256 + g) * 256 + b;
    assert v == r * 65536 + (g * 256 + b);
    assert v / 65536 == r;
    assert v / 256 == r * 256 + g;
  }
}
