/**
 `darkenColor` (src/Components/FAQExamples.jsx): a `#rrggbb` colour is split
 into three base-16 channels, each is scaled down by a percentage, and the
 channels are written back as lower-case, zero-padded hex.

 JavaScript numbers are modelled as `NaN` or an integer; the percentage is an
 integer and the scaling uses integer floor division.
 */
module Colors {

  /** The JavaScript numbers that can arise here. */
  datatype Number = NaN | Int(value: int)

  predicate IsHexDigit(c: char) {
    '0' <= c <= '9' || 'a' <= c <= 'f' || 'A' <= c <= 'F'
  }

  predicate IsLowerHexDigit(c: char) {
    '0' <= c <= '9' || 'a' <= c <= 'f'
  }

  predicate AllHex(s: string) {
    forall i :: 0 <= i < |s| ==> IsHexDigit(s[i])
  }

  predicate AllLowerHex(s: string) {
    forall i :: 0 <= i < |s| ==> IsLowerHexDigit(s[i])
  }

  function DigitValue(c: char): (v: nat)
    requires IsHexDigit(c)
    ensures v < 16
  {
    if '0' <= c <= '9' then (c as int) - ('0' as int)
    else if 'a' <= c <= 'f' then (c as int) - ('a' as int) + 10
    else (c as int) - ('A' as int) + 10
  }

  /** The lower-case digit for a value below 16; it reads back as that value. */
  function DigitChar(v: nat): (c: char)
    requires v < 16
    ensures IsLowerHexDigit(c) && DigitValue(c) == v
  {
    if v < 10 then (('0' as int) + v) as char else (('a' as int) + v - 10) as char
  }

  /** Upper-case hex letters to lower case; everything else unchanged. */
  function LowerChar(c: char): char {
    if 'A' <= c <= 'F' then ((c as int) - ('A' as int) + ('a' as int)) as char else c
  }

  function Lower(s: string): (r: string)
    ensures |r| == |s|
  {
    seq(|s|, i requires 0 <= i < |s| => LowerChar(s[i]))
  }

  /** `indexOf(c)`: the position of the first `c`, or the length when there is none. */
  function IndexOf(s: string, c: char): (i: nat)
    ensures i <= |s|
    ensures i < |s| ==> s[i] == c
    ensures c !in s[..i]
  {
    if s == [] then 0
    else if s[0] == c then 0
    else
      var i := 1 + IndexOf(s[1..], c);
      assert s[..i] == [s[0]] + s[1..][..i - 1];
      i
  }

  /** `hex.replace('#', '')`: only the first `#` is removed. */
  function StripFirstHash(s: string): (r: string)
    ensures '#' !in s ==> r == s
    ensures '#' in s ==> exists i :: 0 <= i < |s| && s[i] == '#' && '#' !in s[..i] && r == s[..i] + s[i + 1..]
  {
    var i := IndexOf(s, '#');
    if i == |s| then
      assert s[..i] == s;
      s
    else s[..i] + s[i + 1..]
  }

  /** `String.prototype.substring(start, end)` for `start <= end`: indices are clamped to the length. */
  function Substring(s: string, start: nat, end: nat): (r: string)
    requires start <= end
    ensures end <= |s| ==> r == s[start..end]
    ensures start <= |s| < end ==> r == s[start..]
    ensures |s| < start ==> r == ""
  {
    var lo := if start <= |s| then start else |s|;
    var hi := if end <= |s| then end else |s|;
    s[lo..hi]
  }

  /** The white space `parseInt` skips before the number. */
  predicate IsJsSpace(c: char) {
    var n := c as int;
    n == 0x09 || n == 0x0A || n == 0x0B || n == 0x0C || n == 0x0D || n == 0x20 || n == 0xA0
    || n == 0x1680 || (0x2000 <= n <= 0x200A) || n == 0x2028 || n == 0x2029 || n == 0x202F
    || n == 0x205F || n == 0x3000 || n == 0xFEFF
  }

  function TrimStart(s: string): (r: string)
    ensures |s| > 0 && !IsJsSpace(s[0]) ==> r == s
    decreases |s|
  {
    if |s| > 0 && IsJsSpace(s[0]) then TrimStart(s[1..]) else s
  }

  /** The number of leading hex digits. */
  function HexPrefixLength(s: string): (n: nat)
    ensures n <= |s|
    ensures AllHex(s[..n])
    ensures n < |s| ==> !IsHexDigit(s[n])
  {
    if |s| > 0 && IsHexDigit(s[0]) then
      var n := 1 + HexPrefixLength(s[1..]);
      assert s[..n] == [s[0]] + s[1..][..n - 1];
      n
    else 0
  }

  /** The value of a string of hex digits, most significant first. */
  function DigitsValue(s: string): nat
    requires AllHex(s)
  {
    if s == [] then 0 else DigitsValue(s[..|s| - 1]) * 16 + DigitValue(s[|s| - 1])
  }

  /**
   `parseInt(s, 16)`: leading white space is skipped, one sign is read, a
   `0x`/`0X` prefix is dropped, and the longest run of hex digits is read;
   with no digits the result is NaN.
   */
  function ParseInt16(s: string): (r: Number)
    ensures AllHex(s) && |s| > 0 ==> r == Int(DigitsValue(s))
  {
    var t := TrimStart(s);
    var negative := |t| > 0 && t[0] == '-';
    var u := if |t| > 0 && (t[0] == '-' || t[0] == '+') then t[1..] else t;
    var v := if |u| >= 2 && u[0] == '0' && (u[1] == 'x' || u[1] == 'X') then u[2..] else u;
    var n := HexPrefixLength(v);
    assert AllHex(s) && |s| > 0 ==> n == |s| && v[..n] == s;
    if n == 0 then NaN
    else
      var d: int := DigitsValue(v[..n]);
      if negative then Int(-d) else Int(d)
  }

  /**
   `Math.floor(c * (1 - percent / 100))` with an integer percentage: NaN stays
   NaN; for 0 <= percent <= 100 a non-negative channel stays within
   [0, original], unchanged at 0% and zero at 100%.
   */
  function Scale(c: Number, percent: int): (r: Number)
    ensures c.NaN? <==> r.NaN?
    ensures c.Int? && c.value >= 0 && 0 <= percent <= 100 ==> 0 <= r.value <= c.value
    ensures c.Int? && percent == 0 ==> r == c
    ensures c.Int? && percent == 100 ==> r == Int(0)
  {
    match c
    case NaN => NaN
    case Int(v) =>
      assert 0 <= v && 0 <= percent <= 100 ==> v * (100 - percent) <= v * 100;
      Int(v * (100 - percent) / 100)
  }

  /**
   `n.toString(16)` for a non-negative integer: lower-case hex digits without
   leading zeros that read back as `n`.
   */
  function ToHex(n: nat): (r: string)
    ensures |r| >= 1 && AllLowerHex(r) && AllHex(r)
    ensures DigitsValue(r) == n
    ensures n < 16 <==> |r| == 1
    ensures n < 256 ==> |r| <= 2
    decreases n
  {
    if n < 16 then [DigitChar(n)]
    else
      var high := ToHex(n / 16);
      var r := high + [DigitChar(n % 16)];
      assert r[..|r| - 1] == high;
      r
  }

  /**
   `Number.prototype.toString(16)`: NaN prints as "NaN", a non-negative value
   as its lower-case hex digits, a negative one as "-" followed by the digits
   of its magnitude.
   */
  function ToString16(c: Number): (r: string)
    ensures c.NaN? ==> r == "NaN"
    ensures c.Int? && c.value >= 0 ==> AllLowerHex(r) && AllHex(r) && |r| >= 1 && DigitsValue(r) == c.value
    ensures c.Int? && c.value < 0 ==>
              |r| >= 2 && r[0] == '-' && AllLowerHex(r[1..]) && AllHex(r[1..]) && DigitsValue(r[1..]) == -c.value
  {
    match c
    case NaN => "NaN"
    case Int(v) =>
      if v >= 0 then ToHex(v)
      else
        var digits := ToHex(-v);
        assert ("-" + digits)[1..] == digits;
        "-" + digits
  }

  /** `padStart(2, '0')`: zeros in front up to length 2; longer strings are unchanged. */
  function PadStart2(s: string): (r: string)
    ensures |s| >= 2 ==> r == s
    ensures |s| < 2 ==> |r| == 2 && r[2 - |s|..] == s && forall i :: 0 <= i < 2 - |s| ==> r[i] == '0'
  {
    if |s| >= 2 then s else seq(2 - |s|, _ => '0') + s
  }

  /** One output channel: the slice `[at, at + 2)` parsed, scaled, printed and padded. */
  function Channel(h: string, at: nat, percent: int): string {
    PadStart2(ToString16(Scale(ParseInt16(Substring(h, at, at + 2)), percent)))
  }

  function DarkenColor(hex: string, percent: int): string {
    var h := StripFirstHash(hex);
    "#" + Channel(h, 0, percent) + Channel(h, 2, percent) + Channel(h, 4, percent)
  }

  /** Two hex digits parse to their value, which is at most 255. */
  lemma ParseTwoHexDigits(s: string)
    requires |s| == 2 && AllHex(s)
    ensures ParseInt16(s) == Int(DigitsValue(s))
    ensures DigitsValue(s) < 256
  {
    TwoDigitsValue(s);
  }

  lemma TwoDigitsValue(s: string)
    requires |s| == 2 && AllHex(s)
    ensures DigitsValue(s) == DigitValue(s[0]) * 16 + DigitValue(s[1])
  {
    var p := s[..1];
    assert s[..|s| - 1] == p;
    assert p[..|p| - 1] == [];
    assert DigitsValue(p) == DigitValue(s[0]);
  }

  /**
   A channel value in [0, 255] prints as exactly two lower-case hex digits
   that read back as the value.
   */
  lemma PaddedHexRoundTrip(v: nat)
    requires v < 256
    ensures var r := PadStart2(ToHex(v));
            |r| == 2 && AllLowerHex(r) && AllHex(r) && DigitsValue(r) == v
  {
    var h := ToHex(v);
    var r := PadStart2(h);
    if |h| == 1 {
      assert r == ['0'] + h;
      assert r[..1] == ['0'];
      assert r[..1][..0] == [];
      assert h[..0] == [];
    }
  }

  /** A well-formed colour: six hex digits, with or without one leading `#`. */
  predicate IsHexColor(hex: string, digits: string) {
    |digits| == 6 && AllHex(digits) && (hex == digits || hex == "#" + digits)
  }

  lemma ChannelOfValid(hex: string, digits: string, at: nat)
    requires IsHexColor(hex, digits) && at <= 4
    ensures StripFirstHash(hex) == digits
    ensures Substring(StripFirstHash(hex), at, at + 2) == digits[at..at + 2]
    ensures AllHex(digits[at..at + 2])
  {
    if hex == "#" + digits {
      assert hex[0] == '#';
      assert IndexOf(hex, '#') == 0;
    }
  }

  /**
   `out` is two lower-case hex digits reading back as the channel `source`
   scaled by `percent`.
   */
  predicate ScaledChannel(out: string, source: string, percent: int) {
    && |out| == 2 && AllLowerHex(out) && AllHex(out) && AllHex(source)
    && DigitsValue(out) == DigitsValue(source) * (100 - percent) / 100
  }

  lemma ChannelScaled(hex: string, digits: string, at: nat, percent: int)
    requires IsHexColor(hex, digits) && at <= 4 && 0 <= percent <= 100
    ensures ScaledChannel(Channel(digits, at, percent), digits[at..at + 2], percent)
    ensures DigitsValue(Channel(digits, at, percent)) <= DigitsValue(digits[at..at + 2])
  {
    ChannelOfValid(hex, digits, at);
    var d := digits[at..at + 2];
    ParseTwoHexDigits(d);
    PaddedHexRoundTrip(Scale(Int(DigitsValue(d)), percent).value);
  }

  /** A well-formed colour is darkened channel by channel from its six digits. */
  lemma DarkenColorChannels(hex: string, digits: string, percent: int)
    requires IsHexColor(hex, digits)
    ensures DarkenColor(hex, percent)
              == "#" + Channel(digits, 0, percent) + Channel(digits, 2, percent) + Channel(digits, 4, percent)
  {
    ChannelOfValid(hex, digits, 0);
  }

  lemma ConcatChannels(a: string, b: string, c: string)
    requires |a| == 2 && |b| == 2 && |c| == 2
    ensures var r := "#" + a + b + c;
            |r| == 7 && r[0] == '#' && r[1..3] == a && r[3..5] == b && r[5..7] == c && r[1..] == a + b + c
  {
  }

  /**
   For a well-formed colour and 0 <= percent <= 100 the result is `#` and six
   lower-case hex digits; each output channel reads back as the matching input
   channel scaled down, so it lies between 0 and the original.
   */
  lemma DarkenColorWellFormed(hex: string, digits: string, percent: int)
    requires IsHexColor(hex, digits) && 0 <= percent <= 100
    ensures var r := DarkenColor(hex, percent);
            && |r| == 7 && r[0] == '#' && AllLowerHex(r[1..])
            && ScaledChannel(r[1..3], digits[0..2], percent)
            && ScaledChannel(r[3..5], digits[2..4], percent)
            && ScaledChannel(r[5..7], digits[4..6], percent)
            && DigitsValue(r[1..3]) <= DigitsValue(digits[0..2])
            && DigitsValue(r[3..5]) <= DigitsValue(digits[2..4])
            && DigitsValue(r[5..7]) <= DigitsValue(digits[4..6])
  {
    ChannelScaled(hex, digits, 0, percent);
    ChannelScaled(hex, digits, 2, percent);
    ChannelScaled(hex, digits, 4, percent);
    var a, b, c := Channel(digits, 0, percent), Channel(digits, 2, percent), Channel(digits, 4, percent);
    DarkenColorChannels(hex, digits, percent);
    ConcatChannels(a, b, c);
    LowerHexConcat(a, b, c);
  }

  lemma LowerHexConcat(a: string, b: string, c: string)
    requires AllLowerHex(a) && AllLowerHex(b) && AllLowerHex(c)
    ensures AllLowerHex(a + b + c)
  {
  }

  /** Lower-casing two hex digits keeps their value. */
  lemma LowerKeepsValue(d: string)
    requires |d| == 2 && AllHex(d)
    ensures AllLowerHex(Lower(d)) && AllHex(Lower(d))
    ensures DigitsValue(Lower(d)) == DigitsValue(d)
  {
    TwoDigitsValue(d);
    TwoDigitsValue(Lower(d));
  }

  /** Two lower-case hex digits are determined by their value. */
  lemma {:induction false} LowerHexUnique(a: string, b: string)
    requires |a| == 2 && |b| == 2 && AllLowerHex(a) && AllLowerHex(b) && AllHex(a) && AllHex(b)
    requires DigitsValue(a) == DigitsValue(b)
    ensures a == b
  {
    TwoDigitsValue(a);
    TwoDigitsValue(b);
    assert DigitValue(a[0]) == DigitValue(b[0]) && DigitValue(a[1]) == DigitValue(b[1]);
    LowerDigitUnique(a[0], b[0]);
    LowerDigitUnique(a[1], b[1]);
  }

  lemma LowerDigitUnique(x: char, y: char)
    requires IsLowerHexDigit(x) && IsLowerHexDigit(y) && DigitValue(x) == DigitValue(y)
    ensures x == y
  {
  }

  lemma LowerSplit(digits: string)
    requires |digits| == 6
    ensures Lower(digits) == Lower(digits[0..2]) + Lower(digits[2..4]) + Lower(digits[4..6])
  {
  }

  /** A channel printed unscaled is the input channel in lower case. */
  lemma UnscaledChannel(out: string, d: string)
    requires |d| == 2 && ScaledChannel(out, d, 0)
    ensures out == Lower(d)
  {
    LowerKeepsValue(d);
    LowerHexUnique(out, Lower(d));
  }

  /** Three unscaled channels behind a `#` spell the input digits in lower case. */
  lemma UnscaledColor(r: string, digits: string)
    requires |digits| == 6 && |r| == 7 && r[0] == '#'
    requires ScaledChannel(r[1..3], digits[0..2], 0)
    requires ScaledChannel(r[3..5], digits[2..4], 0)
    requires ScaledChannel(r[5..7], digits[4..6], 0)
    ensures r == "#" + Lower(digits)
  {
    UnscaledChannel(r[1..3], digits[0..2]);
    UnscaledChannel(r[3..5], digits[2..4]);
    UnscaledChannel(r[5..7], digits[4..6]);
    LowerSplit(digits);
    assert r == r[..1] + r[1..3] + r[3..5] + r[5..7];
  }

  /** At 0% a well-formed colour comes back as `#` and its digits in lower case. */
  lemma DarkenColorZero(hex: string, digits: string)
    requires IsHexColor(hex, digits)
    ensures DarkenColor(hex, 0) == "#" + Lower(digits)
  {
    DarkenColorWellFormed(hex, digits, 0);
    UnscaledColor(DarkenColor(hex, 0), digits);
  }

  /** At 100% every well-formed colour becomes black. */
  lemma DarkenColorFull(hex: string, digits: string)
    requires IsHexColor(hex, digits)
    ensures DarkenColor(hex, 100) == "#000000"
  {
    DarkenColorChannels(hex, digits, 100);
    ChannelFull(digits, 0);
    ChannelFull(digits, 2);
    ChannelFull(digits, 4);
    BlackLiteral();
  }

  lemma BlackLiteral()
    ensures "#" + "00" + "00" + "00" == "#000000"
  {
  }

  lemma ChannelFull(digits: string, at: nat)
    requires |digits| == 6 && AllHex(digits) && at <= 4
    ensures Channel(digits, at, 100) == "00"
  {
    var d := digits[at..at + 2];
    assert Substring(digits, at, at + 2) == d;
    ParseTwoHexDigits(d);
    assert ToHex(0) == "0";
  }

  /** A slice with no hex digit at all prints as "NaN", which padding leaves alone. */
  lemma ChannelNaN(h: string, at: nat, percent: int)
    requires ParseInt16(Substring(h, at, at + 2)) == NaN
    ensures Channel(h, at, percent) == "NaN"
  {
  }

  /** An empty colour (or a lone `#`) gives NaN in every channel. */
  lemma DarkenColorEmpty(hex: string, percent: int)
    requires hex == "" || hex == "#"
    ensures DarkenColor(hex, percent) == "#NaNNaNNaN"
  {
    var h := StripFirstHash(hex);
    if hex == "#" {
      assert IndexOf(hex, '#') == 0;
    }
    assert h == "";
    ChannelNaN(h, 0, percent);
    ChannelNaN(h, 2, percent);
    ChannelNaN(h, 4, percent);
  }
}
