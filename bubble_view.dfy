/** The props of one drawn bubble and its colour helper (components/Bubble.js): `hexToRgba`
  * turns a 3- or 6-digit hex colour into an `rgba(r,g,b,alpha)` string, the way JavaScript's
  * `replace`, `parseInt(_, 16)`, `>>` and `&` compute it, and the component falls back to
  * defaults for missing or falsy props. */
module BubbleView {
  import opened Wrappers

  // ---------- `hex.replace('#', '')` ----------

  /** `s.replace(c, '')` with a one-character pattern: the first occurrence of `c` is removed. */
  function RemoveFirst(s: string, c: char): (r: string)
    ensures c !in s ==> r == s
    ensures |s| > 0 && s[0] == c ==> r == s[1..]
    ensures c in s ==> |r| == |s| - 1
    ensures c in s ==> r == s[..FirstIndex(s, c)] + s[FirstIndex(s, c) + 1..]
    decreases |s|
  {
    if s == [] then []
    else if s[0] == c then s[1..]
    else
      var rest := RemoveFirst(s[1..], c);
      if c in s then InTail(s, c); SplitAfterHead(s, c, rest); [s[0]] + rest
      else [s[0]] + rest
  }

  /** A `c` that is not the head of `s` is in its tail. */
  lemma InTail(s: string, c: char)
    requires c in s && s[0] != c
    ensures c in s[1..]
  {
    var i :| 0 <= i < |s| && s[i] == c;
    assert s[1..][i - 1] == c;
  }

  /** Putting the head back in front of the tail with its first `c` removed removes the first
    * `c` of the whole text. */
  lemma SplitAfterHead(s: string, c: char, rest: string)
    requires c in s && s[0] != c && c in s[1..]
    requires rest == s[1..][..FirstIndex(s[1..], c)] + s[1..][FirstIndex(s[1..], c) + 1..]
    ensures [s[0]] + rest == s[..FirstIndex(s, c)] + s[FirstIndex(s, c) + 1..]
  {
    var k := FirstIndex(s[1..], c);
    assert FirstIndex(s, c) == k + 1;
    assert s[..k + 1] == [s[0]] + s[1..][..k];
    assert s[k + 2..] == s[1..][k + 1..];
  }

  /** Where the first `c` of `s` stands. */
  function FirstIndex(s: string, c: char): (k: nat)
    requires c in s
    ensures k < |s| && s[k] == c && c !in s[..k]
    decreases |s|
  {
    if s[0] == c then 0
    else
      assert c in s[1..] by {
        var i :| 0 <= i < |s| && s[i] == c;
        assert s[1..][i - 1] == c;
      }
      var k := FirstIndex(s[1..], c);
      assert s[..k + 1] == [s[0]] + s[1..][..k];
      k + 1
  }

  /** `c.split('').map(x => x + x).join('')`: every character doubled. */
  function Doubled(s: string): (r: string)
    ensures |r| == 2 * |s|
    ensures forall i :: 0 <= i < |s| ==> r[2 * i] == s[i] && r[2 * i + 1] == s[i]
    decreases |s|
  {
    if s == [] then [] else [s[0], s[0]] + Doubled(s[1..])
  }

  // ---------- `parseInt(_, 16)` ----------

  /** The white space and line terminators `parseInt` skips at the front. */
  predicate IsJsSpace(c: char) {
    || c == '\t' || c == '\n' || c == '\U{000B}' || c == '\U{000C}' || c == '\r' || c == ' '
    || c == '\U{00A0}' || c == '\U{1680}' || ('\U{2000}' <= c <= '\U{200A}')
    || c == '\U{2028}' || c == '\U{2029}' || c == '\U{202F}' || c == '\U{205F}'
    || c == '\U{3000}' || c == '\U{FEFF}'
  }

  /** Where the white space run that starts at `k` ends: `parseInt` skips `s[..SpaceEnd(s, 0)]`. */
  function SpaceEnd(s: string, k: nat): (n: nat)
    requires k <= |s|
    ensures k <= n <= |s|
    ensures forall i :: k <= i < n ==> IsJsSpace(s[i])
    ensures n < |s| ==> !IsJsSpace(s[n])
    decreases |s| - k
  {
    if k < |s| && IsJsSpace(s[k]) then SpaceEnd(s, k + 1) else k
  }

  predicate IsHexDigit(c: char) {
    ('0' <= c <= '9') || ('a' <= c <= 'f') || ('A' <= c <= 'F')
  }

  function HexDigitValue(c: char): (v: nat)
    requires IsHexDigit(c)
    ensures v < 16
  {
    if '0' <= c <= '9' then (c - '0') as nat
    else if 'a' <= c <= 'f' then (c - 'a') as nat + 10
    else (c - 'A') as nat + 10
  }

  predicate AllHex(s: string) {
    forall i :: 0 <= i < |s| ==> IsHexDigit(s[i])
  }

  /** The longest prefix of hex digits. */
  function HexRun(s: string): (r: string)
    ensures AllHex(r) && r <= s
    ensures |r| < |s| ==> !IsHexDigit(s[|r|])
    decreases |s|
  {
    if s != [] && IsHexDigit(s[0]) then [s[0]] + HexRun(s[1..]) else []
  }

  function Pow16(n: nat): (p: nat)
    ensures p >= 1
  {
    if n == 0 then 1 else 16 * Pow16(n - 1)
  }

  /** The value of a run of hex digits, most significant first. */
  function HexValue(s: string): nat
    requires AllHex(s)
    decreases |s|
  {
    if s == [] then 0 else HexValue(s[..|s| - 1]) * 16 + HexDigitValue(s[|s| - 1])
  }

  /** n hex digits hold less than 16^n. */
  lemma {:induction false} HexValueBound(s: string)
    requires AllHex(s)
    ensures HexValue(s) < Pow16(|s|)
    decreases |s|
  {
    if s != [] {
      var p := s[..|s| - 1];
      HexValueBound(p);
      var h, d := HexValue(p), HexDigitValue(s[|s| - 1]);
      assert h <= Pow16(|p|) - 1;
      assert h * 16 <= Pow16(|p|) * 16 - 16;
    }
  }

  /** `parseInt(s, 16)`: skip leading white space, take an optional sign and an optional
    * `0x`/`0X`, then the longest run of hex digits; no digit at all is `NaN` (None). */
  function ParseHex(s: string): (r: Option<int>)
    ensures r.None? <==> HexRun(s[Skipped(s)..]) == []
    ensures s != [] && AllHex(s) ==> r == Some(HexValue(s) as int)
    ensures (forall i :: 0 <= i < |s| ==> !IsHexDigit(s[i])) ==> r == None
  {
    var ds := HexRun(s[Skipped(s)..]);
    assert s != [] && AllHex(s) ==> ds == s && !Negative(s) by {
      if s != [] && AllHex(s) {
        PlainDigits(s);
      }
    }
    assert (forall i :: 0 <= i < |s| ==> !IsHexDigit(s[i])) ==> ds == [] by {
      if forall i :: 0 <= i < |s| ==> !IsHexDigit(s[i]) {
        NoDigitNoRun(s, Skipped(s));
      }
    }
    if ds == [] then None else Some(if Negative(s) then -(HexValue(ds) as int) else HexValue(ds))
  }

  /** Whether the first character after the leading white space is a minus sign. */
  predicate Negative(s: string) {
    var a := SpaceEnd(s, 0);
    a < |s| && s[a] == '-'
  }

  /** How many characters `parseInt` skips before the digits: the leading white space, then
    * a '-' or '+' if there is one, then a `0x`/`0X` if there is one. */
  function Skipped(s: string): (n: nat)
    ensures n <= |s|
  {
    var a := SpaceEnd(s, 0);
    var b := if a < |s| && (s[a] == '-' || s[a] == '+') then a + 1 else a;
    if b + 1 < |s| && s[b] == '0' && (s[b + 1] == 'x' || s[b + 1] == 'X') then b + 2 else b
  }

  /** A plain run of hex digits goes through `parseInt` untouched: no white space, sign or
    * `0x` in front, and the whole text is the digit run. */
  lemma PlainDigits(s: string)
    requires s != [] && AllHex(s)
    ensures Skipped(s) == 0 && s[Skipped(s)..] == s && !Negative(s)
    ensures HexRun(s) == s
  {
    assert IsHexDigit(s[0]);
    HexNotSpace(s[0]);
    assert SpaceEnd(s, 0) == 0;
    if |s| >= 2 {
      assert IsHexDigit(s[1]);
      HexNotSpace(s[1]);
    }
    assert s[0..] == s;
    HexRunAll(s);
  }

  lemma HexNotSpace(c: char)
    requires IsHexDigit(c)
    ensures !IsJsSpace(c) && c != '-' && c != '+' && c != 'x' && c != 'X'
  {
  }

  /** A tail of a text without hex digits has no digit run. */
  lemma NoDigitNoRun(s: string, n: nat)
    requires n <= |s|
    requires forall i :: 0 <= i < |s| ==> !IsHexDigit(s[i])
    ensures HexRun(s[n..]) == []
  {
    if n < |s| {
      assert s[n..][0] == s[n];
    }
  }

  // ---------- `(bigint >> k) & 255` ----------

  /** ECMAScript's ToInt32: the value modulo 2^32, read as a signed 32-bit integer. */
  function ToInt32(n: int): (r: int)
    ensures -0x8000_0000 <= r < 0x8000_0000
    ensures 0 <= n < 0x8000_0000 ==> r == n
  {
    (n + 0x8000_0000) % 0x1_0000_0000 - 0x8000_0000
  }

  /** `(v >> shift) & 255` for a parsed number (`NaN` counts as 0); `>>` is an arithmetic
    * shift, i.e. a division rounding down, and `& 255` keeps the low byte. */
  function Channel(v: Option<int>, unit: nat): (c: int)
    requires unit > 0
    ensures 0 <= c <= 255
  {
    match v
    case None => 0
    case Some(n) => (ToInt32(n) / unit) % 256
  }

  datatype Rgb = Rgb(r: int, g: int, b: int)

  /** The text `hexToRgba` hands to `parseInt`: `hex` without its first '#', with every digit
    * doubled when three characters are left. */
  function Source(hex: string): string
  {
    var c := RemoveFirst(hex, '#');
    if |c| == 3 then Doubled(c) else c
  }

  /** The colour channels `hexToRgba` extracts from `hex`. */
  function Channels(hex: string): (c: Rgb)
    ensures 0 <= c.r <= 255 && 0 <= c.g <= 255 && 0 <= c.b <= 255
  {
    var v := ParseHex(Source(hex));
    Rgb(Channel(v, 0x1_0000), Channel(v, 0x100), Channel(v, 1))
  }

  // ---------- the `rgba(...)` text ----------

  function DigitChar(d: nat): (c: char)
    requires d < 10
    ensures '0' <= c <= '9'
  {
    ('0' as int + d) as char
  }

  predicate IsDigit(c: char) {
    '0' <= c <= '9'
  }

  predicate AllDigits(s: string) {
    forall i :: 0 <= i < |s| ==> IsDigit(s[i])
  }

  /** The decimal text of a natural number, as a template literal writes it. */
  function Dec(n: nat): (s: string)
    ensures |s| > 0 && AllDigits(s)
    decreases n
  {
    if n < 10 then [DigitChar(n)] else Dec(n / 10) + [DigitChar(n % 10)]
  }

  function DecValue(s: string): nat
    requires AllDigits(s)
    decreases |s|
  {
    if s == [] then 0 else DecValue(s[..|s| - 1]) * 10 + (s[|s| - 1] - '0') as nat
  }

  /** `hexToRgba(hex, alpha)`: the channels of `hex` with the given alpha, written out. The
    * alpha is taken as the text JavaScript writes for it ("1" by default). */
  function HexToRgba(hex: string, alpha: string): (s: string)
    ensures ParseRgba(s) == Some((Channels(hex), alpha))
  {
    var c := Channels(hex);
    Format(c, alpha)
  }

  /** The alpha `hexToRgba` uses when none is passed. */
  const DEFAULT_ALPHA: string := "1"

  /** `hexToRgba(hex)` with the alpha left out. */
  function HexToRgbaDefault(hex: string): (s: string)
    ensures ParseRgba(s) == Some((Channels(hex), "1"))
  {
    HexToRgba(hex, DEFAULT_ALPHA)
  }

  /** The template literal `rgba(${r},${g},${b},${alpha})`; what it writes determines the
    * channels and the alpha it was made from. */
  function Format(c: Rgb, alpha: string): (s: string)
    requires 0 <= c.r && 0 <= c.g && 0 <= c.b
    ensures ParseRgba(s) == Some((c, alpha))
  {
    var t := Dec(c.r) + "," + Dec(c.g) + "," + Dec(c.b) + "," + alpha;
    var s := "rgba(" + Dec(c.r) + "," + Dec(c.g) + "," + Dec(c.b) + "," + alpha + ")";
    assert s == "rgba(" + t + ")";
    assert s[..5] == "rgba(" && s[5..|s| - 1] == t;
    FieldsOf(c, alpha);
    s
  }

  // ---------- properties of hexToRgba ----------

  /** Whether the leading '#' is there or not makes no difference. */
  lemma HashIsOptional(s: string, alpha: string)
    requires '#' !in s
    ensures HexToRgba("#" + s, alpha) == HexToRgba(s, alpha)
  {
    assert RemoveFirst("#" + s, '#') == s;
  }

  /** A 3-digit colour means the same as its 6-digit form with every digit doubled. */
  lemma ShortFormExpands(a: char, b: char, c: char)
    ensures Channels("#" + [a, b, c]) == Channels("#" + [a, a, b, b, c, c])
  {
    ShortSource(a, b, c);
  }

  /** Both forms hand `parseInt` the same six digits. */
  lemma ShortSource(a: char, b: char, c: char)
    ensures Source("#" + [a, b, c]) == Source("#" + [a, a, b, b, c, c])
  {
    LeadingHash([a, b, c]);
    LeadingHash([a, a, b, b, c, c]);
    DoubledThree(a, b, c);
  }

  /** The '#' in front is the one `replace` removes. */
  lemma LeadingHash(x: string)
    ensures RemoveFirst("#" + x, '#') == x
  {
    assert ("#" + x)[1..] == x;
  }

  lemma DoubledThree(a: char, b: char, c: char)
    ensures Doubled([a, b, c]) == [a, a, b, b, c, c]
  {
    assert Doubled([a, b, c]) == [a, a] + Doubled([b, c]);
    assert Doubled([b, c]) == [b, b] + Doubled([c]);
    assert Doubled([c]) == [c, c] + Doubled([]);
  }

  lemma {:induction false} HexValueAppend(x: string, y: string)
    requires AllHex(x) && AllHex(y)
    ensures AllHex(x + y)
    ensures HexValue(x + y) == HexValue(x) * Pow16(|y|) + HexValue(y)
    decreases |y|
  {
    if y != [] {
      var xy := x + y;
      var y' := y[..|y| - 1];
      assert xy[..|xy| - 1] == x + y';
      assert xy[|xy| - 1] == y[|y| - 1];
      HexValueAppend(x, y');
      assert HexValue(y) == HexValue(y') * 16 + HexDigitValue(y[|y| - 1]);
      var hx, hy, d, p := HexValue(x), HexValue(y'), HexDigitValue(y[|y| - 1]), Pow16(|y'|);
      calc {
        HexValue(xy);
        HexValue(x + y') * 16 + d;
        (hx * p + hy) * 16 + d;
        { MulAssoc(hx, p, 16); }
        hx * (p * 16) + (hy * 16 + d);
        { assert Pow16(|y|) == p * 16; }
        hx * Pow16(|y|) + HexValue(y);
      }
    } else {
      assert x + y == x;
    }
  }

  lemma MulAssoc(a: int, b: int, c: int)
    ensures (a * b) * c == a * (b * c)
  {
  }

  lemma {:induction false} HexRunAll(s: string)
    requires AllHex(s)
    ensures HexRun(s) == s
    decreases |s|
  {
    if s != [] {
      HexRunAll(s[1..]);
    }
  }

  /** The first '#' of "#s" is the leading one. */
  lemma SourceOfSix(s: string)
    requires |s| == 6 && AllHex(s)
    ensures Source("#" + s) == s
  {
    assert RemoveFirst("#" + s, '#') == s;
  }

  /** "#" and six digits: the channels of the digits' value. */
  lemma SixParsed(s: string)
    requires |s| == 6 && AllHex(s)
    ensures var v := Some(HexValue(s) as int);
            Channels("#" + s) == Rgb(Channel(v, 0x1_0000), Channel(v, 0x100), Channel(v, 1))
  {
    SourceOfSix(s);
  }

  /** The channels of a value below 2^24 are its three bytes. */
  lemma ChannelsOfValue(r: nat, g: nat, b: nat)
    requires r < 256 && g < 256 && b < 256
    ensures var v := Some((r * 256 + g) * 256 + b);
            Channel(v, 0x1_0000) == r && Channel(v, 0x100) == g && Channel(v, 1) == b
  {
    var v := (r * 256 + g) * 256 + b;
    assert ToInt32(v) == v;
    ChannelsOf(r, g, b);
  }

  /** The value of six hex digits, pair by pair. */
  lemma SixDigitValue(x: string, y: string, z: string)
    requires |x| == |y| == |z| == 2 && AllHex(x) && AllHex(y) && AllHex(z)
    ensures AllHex(x + y + z)
    ensures HexValue(x) < 256 && HexValue(y) < 256 && HexValue(z) < 256
    ensures HexValue(x + y + z) == (HexValue(x) * 256 + HexValue(y)) * 256 + HexValue(z)
  {
    HexValueBound(x);
    HexValueBound(y);
    HexValueBound(z);
    assert Pow16(2) == 256;
    HexValueAppend(x, y);
    HexValueAppend(x + y, z);
  }

  /** Six digits whose value has the bytes r, g, b give the channels r, g, b. */
  lemma SixBytes(s: string, r: nat, g: nat, b: nat)
    requires |s| == 6 && AllHex(s)
    requires r < 256 && g < 256 && b < 256 && HexValue(s) == (r * 256 + g) * 256 + b
    ensures Channels("#" + s) == Rgb(r, g, b)
  {
    SixParsed(s);
    var n := (r * 256 + g) * 256 + b;
    assert Some(HexValue(s) as int) == Some(n);
    ChannelsOfValue(r, g, b);
  }

  /** For a 6-digit colour the channels are the values of the three digit pairs, so they
    * recompose into the parsed value: `r * 65536 + g * 256 + b`. */
  lemma SixDigitChannels(s: string)
    requires |s| == 6 && AllHex(s)
    ensures AllHex(s[..2]) && AllHex(s[2..4]) && AllHex(s[4..])
    ensures Channels("#" + s) == Rgb(HexValue(s[..2]), HexValue(s[2..4]), HexValue(s[4..]))
    ensures HexValue(s[..2]) * 0x1_0000 + HexValue(s[2..4]) * 0x100 + HexValue(s[4..]) == HexValue(s)
  {
    var x, y, z := s[..2], s[2..4], s[4..];
    assert s == x + y + z;
    SixDigitValue(x, y, z);
    SixBytes(s, HexValue(x), HexValue(y), HexValue(z));
  }

  lemma ChannelsOf(r: nat, g: nat, b: nat)
    requires r < 256 && g < 256 && b < 256
    ensures var v := (r * 256 + g) * 256 + b;
            && v / 0x1_0000 % 256 == r && v / 0x100 % 256 == g && v / 1 % 256 == b
  {
    var v := (r * 256 + g) * 256 + b;
    DivMod(v, 0x1_0000, r, g * 256 + b);
    DivMod(v, 0x100, r * 256 + g, b);
    DivMod(r * 256 + g, 256, r, g);
    DivMod(r, 256, 0, r);
  }

  /** Division with remainder has one answer. */
  lemma DivMod(v: int, m: int, q: int, rem: int)
    requires 0 <= rem < m && v == q * m + rem
    ensures v / m == q && v % m == rem
  {
    var q', rem' := v / m, v % m;
    assert v == q' * m + rem' && 0 <= rem' < m;
    var d := q - q';
    assert d * m == rem' - rem by {
      assert q * m - q' * m == (q - q') * m;
    }
    MulAwayFromZero(d, m);
  }

  lemma MulAwayFromZero(d: int, m: int)
    requires m > 0
    ensures d == 0 || d * m >= m || d * m <= -m
  {
    if d >= 1 {
      assert d * m == (d - 1) * m + m;
      assert (d - 1) * m >= 0;
    } else if d <= -1 {
      assert d * m == (d + 1) * m - m;
      assert (d + 1) * m <= 0;
    }
  }

  /** A string that is no hex colour at all (nothing `parseInt` can read) comes out black. */
  lemma UnreadableIsBlack(hex: string)
    requires ParseHex(Source(hex)) == None
    ensures Channels(hex) == Rgb(0, 0, 0)
  {
  }

  // ---------- reading the text back ----------

  lemma {:induction false} DecValueOfDec(n: nat)
    ensures DecValue(Dec(n)) == n
    decreases n
  {
    if n >= 10 {
      DecValueOfDec(n / 10);
      var s := Dec(n);
      assert s[..|s| - 1] == Dec(n / 10);
    }
  }

  /** The length of the leading run of decimal digits. */
  function DigitRun(s: string): (k: nat)
    ensures k <= |s| && AllDigits(s[..k])
    ensures k < |s| ==> !IsDigit(s[k])
    decreases |s|
  {
    if s != [] && IsDigit(s[0]) then 1 + DigitRun(s[1..]) else 0
  }

  lemma {:induction false} DigitRunOf(d: string, rest: string)
    requires AllDigits(d)
    requires rest != [] && !IsDigit(rest[0])
    ensures DigitRun(d + rest) == |d|
    decreases |d|
  {
    if d != [] {
      var s := d + rest;
      assert s[0] == d[0] && IsDigit(d[0]);
      assert s[1..] == d[1..] + rest;
      DigitRunOf(d[1..], rest);
      assert DigitRun(s) == 1 + DigitRun(s[1..]);
    } else {
      assert d + rest == rest;
    }
  }

  /** Read a number followed by `sep`: its value and what follows the separator. */
  function ReadField(s: string, sep: char): Option<(int, string)>
  {
    var k := DigitRun(s);
    if k == 0 || k == |s| || s[k] != sep then None
    else Some((DecValue(s[..k]), s[k + 1..]))
  }

  lemma ReadFieldOf(n: nat, sep: char, rest: string)
    requires !IsDigit(sep)
    ensures ReadField(Dec(n) + [sep] + rest, sep) == Some((n, rest))
  {
    var d := Dec(n);
    var s := d + [sep] + rest;
    assert s == d + ([sep] + rest);
    DigitRunOf(d, [sep] + rest);
    assert s[..|d|] == d;
    assert s[|d| + 1..] == rest;
    DecValueOfDec(n);
  }

  /** Read an `rgba(r,g,b,alpha)` text back into its channels and alpha text. */
  function ParseRgba(s: string): Option<(Rgb, string)>
  {
    if |s| < 6 || s[..5] != "rgba(" || s[|s| - 1] != ')' then None
    else Fields(s[5..|s| - 1])
  }

  /** The three numbers and the alpha text between the parentheses. */
  function Fields(t: string): Option<(Rgb, string)>
  {
    match ReadField(t, ',')
    case None => None
    case Some((r, t1)) =>
      match ReadField(t1, ',')
      case None => None
      case Some((g, t2)) =>
        match ReadField(t2, ',')
        case None => None
        case Some((b, alpha)) => Some((Rgb(r, g, b), alpha))
  }

  lemma FieldsOf(c: Rgb, alpha: string)
    requires 0 <= c.r && 0 <= c.g && 0 <= c.b
    ensures Fields(Dec(c.r) + "," + Dec(c.g) + "," + Dec(c.b) + "," + alpha) == Some((c, alpha))
  {
    var t3 := Dec(c.b) + "," + alpha;
    var t2 := Dec(c.g) + "," + t3;
    var t1 := Dec(c.r) + "," + t2;
    assert t1 == Dec(c.r) + "," + Dec(c.g) + "," + Dec(c.b) + "," + alpha;
    ReadFieldOf(c.r, ',', t2);
    ReadFieldOf(c.g, ',', t3);
    ReadFieldOf(c.b, ',', alpha);
  }

  // ---------- the component's props ----------

  /** An animated prop as `Bubble` receives it: absent (`undefined`), a plain number, or an
    * `Animated.Value` (an object, hence truthy). */
  datatype Prop = Absent | Number(v: real) | Driven

  predicate Truthy(p: Prop) {
    p.Driven? || (p.Number? && p.v != 0.0)
  }

  /** `p || d`: the prop when it is truthy, the default otherwise (a plain 0 included). */
  function Or(p: Prop, d: real): Prop
  {
    if Truthy(p) then p else Number(d)
  }

  /** The boxes the `size` prop sets: the outer view, the aura, the ring and the sprite share
    * one square side, the aura and the ring round it off with half of it as radius, and the
    * sticker is a smaller square inset by the same amount on every side. */
  datatype Frame = Frame(side: real, radius: real, stickerSide: real, stickerInset: real)

  /** `size = 72` applies only when the prop is `undefined`. */
  function Layout(size: Option<real>): (f: Frame)
    ensures size.Some? ==> f.side == size.value
    ensures size.None? ==> f.side == 72.0
    ensures f.radius * 2.0 == f.side
    ensures f.stickerInset * 2.0 + f.stickerSide == f.side
    ensures f.side > 0.0 ==> 0.0 < f.stickerSide < f.side && 0.0 < f.stickerInset
  {
    var d := if size.Some? then size.value else 72.0;
    Frame(d, d / 2.0, d * 0.42, d * 0.29)
  }

  /** The style values the outer view and the ring take: scale, opacity, ring scale and ring
    * opacity, with their `||` fallbacks. */
  datatype Look = Look(scale: Prop, opacity: Prop, ringScale: Prop, ringOpacity: Prop)

  function Styled(scale: Prop, opacity: Prop, ringScale: Prop, ringOpacity: Prop): (l: Look)
    ensures Truthy(l.scale) && Truthy(l.opacity) && Truthy(l.ringScale)
    ensures l.ringOpacity.Number? ==> l.ringOpacity == ringOpacity || l.ringOpacity.v == 0.0
    ensures l.ringOpacity.Driven? <==> ringOpacity.Driven?
    ensures Truthy(scale) ==> l.scale == scale
    ensures !Truthy(scale) ==> l.scale == Number(1.0)
    ensures Truthy(opacity) ==> l.opacity == opacity
    ensures !Truthy(opacity) ==> l.opacity == Number(1.0)
    ensures Truthy(ringScale) ==> l.ringScale == ringScale
    ensures !Truthy(ringScale) ==> l.ringScale == Number(1.0)
    ensures Truthy(ringOpacity) ==> l.ringOpacity == ringOpacity
    ensures !Truthy(ringOpacity) ==> l.ringOpacity == Number(0.0)
  {
    Look(Or(scale, 1.0), Or(opacity, 1.0), Or(ringScale, 1.0), Or(ringOpacity, 0.0))
  }

  /** A tint prop counts only when truthy (not missing, not the empty string). */
  predicate HasTint(tint: Option<string>) {
    tint.Some? && tint.value != ""
  }

  /** 'rgba(255,255,255,0.65)', kept in its parts. */
  const WHITE_RING: string := "rgba(" + "255" + "," + "255" + "," + "255" + "," + "0.65" + ")"

  /** The ring's border colour: the tint at alpha 0.65, or translucent white without a tint. */
  function RingColor(tint: Option<string>): (c: string)
    ensures HasTint(tint) ==> c == HexToRgba(tint.value, "0.65")
    ensures !HasTint(tint) ==> ParseRgba(c) == Some((Rgb(255, 255, 255), "0.65"))
  {
    if HasTint(tint) then HexToRgba(tint.value, "0.65")
    else
      WhiteRingText();
      WHITE_RING
  }

  /** The fallback is the text `hexToRgba` writes for white at alpha 0.65. */
  lemma WhiteRingText()
    ensures WHITE_RING == Format(Rgb(255, 255, 255), "0.65")
  {
    DecOfByteMax();
  }

  lemma DecOfByteMax()
    ensures Dec(255) == "255"
  {
    assert Dec(2) == "2";
    assert Dec(25) == "25";
  }

  /** The aura behind the bubble: the tint at alpha 0.08, and nothing without a tint. */
  function AuraColor(tint: Option<string>): (c: Option<string>)
    ensures c.Some? <==> HasTint(tint)
    ensures HasTint(tint) ==> c == Some(HexToRgba(tint.value, "0.08"))
  {
    if HasTint(tint) then Some(HexToRgba(tint.value, "0.08")) else None
  }
}
