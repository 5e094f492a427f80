/** The colour shader behind the lighter top face and the darker side face of
    a bar: `#rrggbb` is read as one packed integer, split into its red, green
    and blue channels, every channel is shifted by the same signed amount and
    clamped, and the result is written back as `#` and six lower-case hex
    digits. */
module Colour {

  /** The three channels of a packed 24-bit colour. */
  datatype Rgb = Rgb(r: int, g: int, b: int)

  predicate IsHexDigit(c: char) {
    '0' <= c <= '9' || 'a' <= c <= 'f' || 'A' <= c <= 'F'
  }

  predicate IsLowerHexDigit(c: char) {
    '0' <= c <= '9' || 'a' <= c <= 'f'
  }

  predicate AllHex(s: string) {
    forall i :: 0 <= i < |s| ==> IsHexDigit(s[i])
  }

  predicate AllLowerHex(s: string) {
    forall i :: 0 <= i < |s| ==> IsLowerHexDigit(s[i])
  }

  /** The only colour strings the shader is modelled on: `#rrggbb`. */
  predicate WellFormed(color: string) {
    |color| == 7 && color[0] == '#' && AllHex(color[1..])
  }

  /** What the shader promises to return: `#` and six lower-case hex digits. */
  predicate IsLowerHexColour(color: string) {
    |color| == 7 && color[0] == '#' && AllLowerHex(color[1..])
  }

  predicate IsChannel(v: int) {
    0 <= v <= 255
  }

  predicate IsChannels(c: Rgb) {
    IsChannel(c.r) && IsChannel(c.g) && IsChannel(c.b)
  }

  function Pow16(k: nat): (p: nat)
    ensures p >= 1
  {
    if k == 0 then 1 else 16 * Pow16(k - 1)
  }

  /** Six hex digits hold exactly the values below `0x1000000`. */
  lemma SixDigitBound()
    ensures Pow16(6) == 0x100_0000
  {
    assert Pow16(2) == 0x100;
    assert Pow16(4) == 0x1_0000;
  }

  function HexValue(c: char): (v: nat)
    requires IsHexDigit(c)
    ensures v < 16
  {
    if '0' <= c <= '9' then c as int - '0' as int
    else if 'a' <= c <= 'f' then c as int - 'a' as int + 10
    else c as int - 'A' as int + 10
  }

  /** The lower-case digit `Number.prototype.toString(16)` writes for `v`. */
  function Digit(v: nat): (c: char)
    requires v < 16
    ensures IsLowerHexDigit(c) && HexValue(c) == v
  {
    if v < 10 then ('0' as int + v) as char else ('a' as int + v - 10) as char
  }

  function ToLowerDigit(c: char): (d: char)
    requires IsHexDigit(c)
    ensures IsLowerHexDigit(d) && HexValue(d) == HexValue(c)
  {
    if 'A' <= c <= 'F' then (c as int - 'A' as int + 'a' as int) as char else c
  }

  function Lowercase(s: string): (t: string)
    requires AllHex(s)
    ensures |t| == |s| && AllLowerHex(t)
    ensures forall i :: 0 <= i < |s| ==> t[i] == ToLowerDigit(s[i])
  {
    seq(|s|, i requires 0 <= i < |s| => ToLowerDigit(s[i]))
  }

  /** `parseInt(s, 16)` on a non-empty string made only of hex digits. The
      empty string, where `parseInt` gives NaN, is only the recursion's base
      case: the shader always passes six digits. */
  function ParseHex(s: string): (n: nat)
    requires AllHex(s)
    ensures n < Pow16(|s|)
  {
    if s == [] then 0 else ParseHex(s[..|s| - 1]) * 16 + HexValue(s[|s| - 1])
  }

  /** `n.toString(16)` for a non-negative integer: no leading zeros. */
  function ToHexString(n: nat): (s: string)
    ensures |s| >= 1 && AllLowerHex(s)
  {
    if n < 16 then [Digit(n)] else ToHexString(n / 16) + [Digit(n % 16)]
  }

  /** The last `k` hex digits of `v`, zero-padded on the left. */
  function HexDigits(v: nat, k: nat): (s: string)
    ensures |s| == k && AllLowerHex(s)
  {
    if k == 0 then [] else HexDigits(v / 16, k - 1) + [Digit(v % 16)]
  }

  /** Writing `16^k + v` in hex gives a leading `1` and then `v` on exactly
      `k` digits: this is why the shader adds `0x1000000` and drops the first
      character. */
  lemma {:induction false} ToHexStringLeadingOne(v: nat, k: nat)
    requires v < Pow16(k)
    ensures ToHexString(Pow16(k) + v) == ['1'] + HexDigits(v, k)
  {
    if k > 0 {
      var n := Pow16(k) + v;
      assert n / 16 == Pow16(k - 1) + v / 16 && n % 16 == v % 16;
      ToHexStringLeadingOne(v / 16, k - 1);
    }
  }

  /** Reading back `k` digits written by HexDigits gives the value. */
  lemma {:induction false} ParseHexDigits(v: nat, k: nat)
    requires v < Pow16(k)
    ensures ParseHex(HexDigits(v, k)) == v
  {
    if k > 0 {
      var s := HexDigits(v, k);
      assert s[..k - 1] == HexDigits(v / 16, k - 1);
      ParseHexDigits(v / 16, k - 1);
    }
  }

  lemma HexDigitsSnoc(p: nat, d: nat, k: nat)
    requires d < 16
    ensures HexDigits(p * 16 + d, k + 1) == HexDigits(p, k) + [Digit(d)]
  {
    var v := p * 16 + d;
    assert v / 16 == p && v % 16 == d;
  }

  lemma LowercaseSnoc(s: string)
    requires AllHex(s) && s != []
    ensures AllHex(s[..|s| - 1])
    ensures Lowercase(s) == Lowercase(s[..|s| - 1]) + [ToLowerDigit(s[|s| - 1])]
  {
  }

  /** Writing back what was read gives the same digits, lower-cased. */
  lemma {:induction false} HexDigitsOfParse(s: string)
    requires AllHex(s)
    ensures HexDigits(ParseHex(s), |s|) == Lowercase(s)
  {
    if s != [] {
      var k := |s|;
      var init := s[..k - 1];
      var d := HexValue(s[k - 1]);
      LowercaseSnoc(s);
      assert ParseHex(s) == ParseHex(init) * 16 + d;
      HexDigitsSnoc(ParseHex(init), d, k - 1);
      HexDigitsOfParse(init);
      assert Digit(d) == ToLowerDigit(s[k - 1]);
    }
  }

  /** `num >> 16`, `(num >> 8) & 0xFF` and `num & 0xFF`. For `0 <= num < 2^24`
      a right shift by `k` is division by `2^k` and a mask with `2^k - 1` is
      the remainder, so the split is stated with `/` and `%`. */
  function Channels(num: nat): (c: Rgb)
    requires num < 0x100_0000
    ensures IsChannels(c)
  {
    Rgb(num / 0x1_0000, (num / 0x100) % 0x100, num % 0x100)
  }

  /** `R * 0x10000 + G * 0x100 + B`. */
  function Pack(c: Rgb): (n: int)
    ensures IsChannels(c) ==> 0 <= n < 0x100_0000
  {
    c.r * 0x1_0000 + c.g * 0x100 + c.b
  }

  lemma PackChannels(num: nat)
    requires num < 0x100_0000
    ensures Pack(Channels(num)) == num
  {
    var q := num / 0x100;
    assert num == q * 0x100 + num % 0x100;
    assert q == (q / 0x100) * 0x100 + q % 0x100;
    assert num / 0x1_0000 == q / 0x100;
  }

  lemma ChannelsPack(c: Rgb)
    requires IsChannels(c)
    ensures 0 <= Pack(c) < 0x100_0000
    ensures Channels(Pack(c)) == c
  {
    var n := Pack(c);
    assert n / 0x100 == c.r * 0x100 + c.g && n % 0x100 == c.b;
    assert (c.r * 0x100 + c.g) % 0x100 == c.g;
    assert n / 0x1_0000 == c.r;
  }

  /** The decoded channels of a well-formed colour string. */
  function ColourOf(color: string): (c: Rgb)
    requires WellFormed(color)
    ensures IsChannels(c)
  {
    SixDigitBound();
    Channels(ParseHex(color[1..]))
  }

  /** `Math.round`: the nearest integer, halves rounded up. */
  function Round(x: real): (n: int)
    ensures x - 0.5 < n as real <= x + 0.5
  {
    (x + 0.5).Floor
  }

  /** `Math.round(2.55 * percent)`, the shift applied to every channel. */
  function Amount(percent: real): (amt: int)
    ensures 2.55 * percent - 0.5 < amt as real <= 2.55 * percent + 0.5
  {
    Round(2.55 * percent)
  }

  /** The two shifts the chart uses: `+10` lightens by 26, `-10` darkens by 25. */
  lemma AmountOfFaceShades()
    ensures Amount(10.0) == 26
    ensures Amount(-10.0) == -25
  {
    assert 2.55 * 10.0 + 0.5 == 26.0;
    assert 2.55 * -10.0 + 0.5 == -25.0;
  }

  /** `v < 255 ? (v < 1 ? 0 : v) : 255`: saturate into a channel. */
  function Clamp(v: int): (r: int)
    ensures IsChannel(r)
    ensures v < 1 ==> r == 0
    ensures v >= 255 ==> r == 255
    ensures IsChannel(v) ==> r == v
  {
    if v < 255 then (if v < 1 then 0 else v) else 255
  }

  lemma ClampMonotone(a: int, b: int)
    requires a <= b
    ensures Clamp(a) <= Clamp(b)
  {
  }

  /** Every channel moved by `amt` and saturated. */
  function ShiftChannels(c: Rgb, amt: int): (s: Rgb)
    ensures IsChannels(s)
  {
    Rgb(Clamp(c.r + amt), Clamp(c.g + amt), Clamp(c.b + amt))
  }

  /** A colour written as `#` and six lower-case hex digits of its packed value. */
  function Encode(c: Rgb): (s: string)
    requires IsChannels(c)
    ensures IsLowerHexColour(s) && WellFormed(s)
    ensures ColourOf(s) == c
  {
    ChannelsPack(c);
    SixDigitBound();
    ParseHexDigits(Pack(c), 6);
    assert (['#'] + HexDigits(Pack(c), 6))[1..] == HexDigits(Pack(c), 6);
    ['#'] + HexDigits(Pack(c), 6)
  }

  /** `(0x1000000 + v).toString(16).slice(1)` is `v` on six digits. */
  lemma DropLeadingOne(v: nat)
    requires v < 0x100_0000
    ensures ToHexString(0x100_0000 + v)[1..] == HexDigits(v, 6)
  {
    SixDigitBound();
    ToHexStringLeadingOne(v, 6);
  }

  /** Decoding and re-encoding a well-formed colour gives its digits back,
      lower-cased. */
  lemma EncodeColourOf(color: string)
    requires WellFormed(color)
    ensures Encode(ColourOf(color)) == ['#'] + Lowercase(color[1..])
  {
    var digits := color[1..];
    SixDigitBound();
    PackChannels(ParseHex(digits));
    HexDigitsOfParse(digits);
  }

  /** Colours in the shader's output form are told apart by their channels. */
  lemma LowerHexColourDeterminedByChannels(a: string, b: string)
    requires WellFormed(a) && IsLowerHexColour(a)
    requires WellFormed(b) && IsLowerHexColour(b)
    requires ColourOf(a) == ColourOf(b)
    ensures a == b
  {
    EncodeColourOf(a);
    EncodeColourOf(b);
    assert Lowercase(a[1..]) == a[1..];
    assert Lowercase(b[1..]) == b[1..];
    assert a == [a[0]] + a[1..] && b == [b[0]] + b[1..];
  }

  /** `shadeColor(color, percent)`: decode, shift every channel, encode. */
  function ShadeColor(color: string, percent: real): (shaded: string)
    requires WellFormed(color)
    ensures shaded == Encode(ShiftChannels(ColourOf(color), Amount(percent)))
  {
    SixDigitBound();
    var num := ParseHex(color[1..]);
    var amt := Amount(percent);
    var c := Channels(num);
    var R := c.r + amt;
    var G := c.g + amt;
    var B := c.b + amt;
    var packed := Pack(Rgb(Clamp(R), Clamp(G), Clamp(B)));
    ChannelsPack(Rgb(Clamp(R), Clamp(G), Clamp(B)));
    DropLeadingOne(packed);
    ['#'] + ToHexString(0x100_0000 + packed)[1..]
  }

  /** Whatever the percentage, the result is `#` and six lower-case hex
      digits, and each channel is the input channel plus the shift, saturated
      into [0, 255]. */
  lemma ShadeColorOutput(color: string, percent: real)
    requires WellFormed(color)
    ensures var shaded := ShadeColor(color, percent);
      IsLowerHexColour(shaded) &&
      ColourOf(shaded) == ShiftChannels(ColourOf(color), Amount(percent))
  {
  }

  /** Shading by 0 percent re-writes the colour, lower-cased. */
  lemma ShadeByZero(color: string)
    requires WellFormed(color)
    ensures ShadeColor(color, 0.0) == ['#'] + Lowercase(color[1..])
  {
    assert Amount(0.0) == 0;
    EncodeColourOf(color);
  }

  /** A lower-case colour is a fixed point of shading by 0 percent. */
  lemma ShadeByZeroLowerCase(color: string)
    requires WellFormed(color) && IsLowerHexColour(color)
    ensures ShadeColor(color, 0.0) == color
  {
    ShadeByZero(color);
    var digits := color[1..];
    assert Lowercase(digits) == digits;
  }

  /** The top face (`+10`) is channel-wise no darker than the base colour:
      each channel gains 26, saturating at 255. */
  lemma LighterFace(color: string)
    requires WellFormed(color)
    ensures var base, lit := ColourOf(color), ColourOf(ShadeColor(color, 10.0));
      lit == ShiftChannels(base, 26) &&
      base.r <= lit.r && base.g <= lit.g && base.b <= lit.b
  {
    AmountOfFaceShades();
  }

  /** The side face (`-10`) is channel-wise no lighter than the base colour:
      each channel loses 25, saturating at 0. */
  lemma DarkerFace(color: string)
    requires WellFormed(color)
    ensures var base, dark := ColourOf(color), ColourOf(ShadeColor(color, -10.0));
      dark == ShiftChannels(base, -25) &&
      dark.r <= base.r && dark.g <= base.g && dark.b <= base.b
  {
    AmountOfFaceShades();
  }

  lemma GreyChannels()
    ensures WellFormed("#808080") && ColourOf("#808080") == Rgb(0x80, 0x80, 0x80)
  {
    var digits := "#808080"[1..];
    var d5, d4, d3, d2, d1 := "80808", "8080", "808", "80", "8";
    assert digits[..5] == d5 && d5[..4] == d4 && d4[..3] == d3 && d3[..2] == d2 && d2[..1] == d1;
    assert ParseHex(d1) == 0x8;
    assert ParseHex(d2) == 0x80;
    assert ParseHex(d3) == 0x808;
    assert ParseHex(d4) == 0x8080;
    assert ParseHex(d5) == 0x8_0808;
    assert ParseHex(digits) == 0x80_8080;
  }

  lemma EncodeLightGrey()
    ensures Encode(Rgb(0x9a, 0x9a, 0x9a)) == "#9a9a9a"
  {
    assert Pack(Rgb(0x9a, 0x9a, 0x9a)) == 0x9a_9a9a;
    assert Digit(0x9) == '9' && Digit(0xa) == 'a';
    assert HexDigits(0x9, 1) == "9";
    assert HexDigits(0x9a, 2) == "9a";
    assert HexDigits(0x9a9, 3) == "9a9";
    assert HexDigits(0x9a9a, 4) == "9a9a";
    assert HexDigits(0x9_a9a9, 5) == "9a9a9";
    assert HexDigits(0x9a_9a9a, 6) == "9a9a9a";
  }

  lemma EncodeDarkGrey()
    ensures Encode(Rgb(0x67, 0x67, 0x67)) == "#676767"
  {
    assert Pack(Rgb(0x67, 0x67, 0x67)) == 0x67_6767;
    assert Digit(0x6) == '6' && Digit(0x7) == '7';
    assert HexDigits(0x6, 1) == "6";
    assert HexDigits(0x67, 2) == "67";
    assert HexDigits(0x676, 3) == "676";
    assert HexDigits(0x6767, 4) == "6767";
    assert HexDigits(0x6_7676, 5) == "67676";
    assert HexDigits(0x67_6767, 6) == "676767";
  }

  /** Mid grey `#808080` moves by 26 up and 25 down. */
  lemma GreyFaces()
    ensures ShadeColor("#808080", 10.0) == "#9a9a9a"
    ensures ShadeColor("#808080", -10.0) == "#676767"
  {
    AmountOfFaceShades();
    GreyChannels();
    EncodeLightGrey();
    EncodeDarkGrey();
  }
}
