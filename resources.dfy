/**
 * The integer part of the app's colour helpers: splitting a 24-bit colour
 * into bytes, and reading a colour from hex text by its number of digits.
 * The division of each component by 255 into a floating-point colour is not
 * part of this model.
 */
module Resources {

  // ---- `UIColor(hex:)` ------------------------------------------------------------

  datatype RGB = RGB(r: nat, g: nat, b: nat)

  /**
   * `(hex >> 16) & 0xff`, `(hex >> 8) & 0xff`, `hex & 0xff`. For a negative
   * `Int` the shift is arithmetic and the mask takes two's complement bits,
   * which is what Euclidean `/` and `%` by a power of two compute.
   */
  function HexComponents(hex: int): (c: RGB)
    ensures c.r < 256 && c.g < 256 && c.b < 256
    ensures 0 <= hex < 0x100_0000 ==> hex == c.r * 0x1_0000 + c.g * 0x100 + c.b
  {
    RGB((hex / 0x1_0000) % 0x100, (hex / 0x100) % 0x100, hex % 0x100)
  }

  /** Three bytes joined into one 24-bit number come apart into the same bytes. */
  lemma HexComponentsRoundTrip(c: RGB)
    requires c.r < 256 && c.g < 256 && c.b < 256
    ensures HexComponents(c.r * 0x1_0000 + c.g * 0x100 + c.b) == c
  {
    var hex := c.r * 0x1_0000 + c.g * 0x100 + c.b;
    assert hex / 0x100 == c.r * 0x100 + c.g;
    assert hex / 0x1_0000 == c.r;
  }

  /** `UIColor.app`. */
  const AppColor: int := 0x1FB18A

  lemma AppColorComponents()
    ensures HexComponents(AppColor) == RGB(31, 177, 138)
  {
  }

  // ---- hex text --------------------------------------------------------------------

  predicate IsAlphanumeric(c: char) {
    ('0' <= c <= '9') || ('a' <= c <= 'z') || ('A' <= c <= 'Z')
  }

  predicate IsHexDigit(c: char) {
    ('0' <= c <= '9') || ('a' <= c <= 'f') || ('A' <= c <= 'F')
  }

  function HexDigitValue(c: char): (d: nat)
    requires IsHexDigit(c)
    ensures d < 16
  {
    if '0' <= c <= '9' then c as int - '0' as int
    else if 'a' <= c <= 'f' then c as int - 'a' as int + 10
    else c as int - 'A' as int + 10
  }

  /** `s[i..j]` is `s` with everything that is not alphanumeric cut from both ends. */
  predicate TrimmedAt(s: string, i: int, j: int) {
    && 0 <= i <= j <= |s|
    && (forall k | 0 <= k < i :: !IsAlphanumeric(s[k]))
    && (forall k | j <= k < |s| :: !IsAlphanumeric(s[k]))
    && (i < j ==> IsAlphanumeric(s[i]) && IsAlphanumeric(s[j - 1]))
  }

  /**
   * `trimmingCharacters(in: CharacterSet.alphanumerics.inverted)`: the text
   * that remains when the characters that are not alphanumeric are cut from
   * both ends.
   */
  function Trim(s: string): (t: string)
    ensures exists i, j :: TrimmedAt(s, i, j) && 0 <= i <= j <= |s| && t == s[i..j]
  {
    var i := FirstAlphanumeric(s, 0);
    var j := AfterLastAlphanumeric(s, i, |s|);
    assert TrimmedAt(s, i, j);
    s[i..j]
  }

  /** The first alphanumeric position at or after `from`, or `|s|`. */
  function FirstAlphanumeric(s: string, from: nat): (i: nat)
    requires from <= |s|
    ensures from <= i <= |s|
    ensures i < |s| ==> IsAlphanumeric(s[i])
    ensures forall k | from <= k < i :: !IsAlphanumeric(s[k])
    decreases |s| - from
  {
    if from == |s| || IsAlphanumeric(s[from]) then from else FirstAlphanumeric(s, from + 1)
  }

  /** Just after the last alphanumeric position in `s[lo..hi]`, or `lo`. */
  function AfterLastAlphanumeric(s: string, lo: nat, hi: nat): (j: nat)
    requires lo <= hi <= |s|
    ensures lo <= j <= hi
    ensures j > lo ==> IsAlphanumeric(s[j - 1])
    ensures forall k | j <= k < hi :: !IsAlphanumeric(s[k])
    decreases hi - lo
  {
    if hi == lo || IsAlphanumeric(s[hi - 1]) then hi else AfterLastAlphanumeric(s, lo, hi - 1)
  }

  /** The longest run of hex digits at the start of `s`. */
  function HexRun(s: string): (d: string)
    ensures |d| <= |s| && d == s[..|d|]
    ensures forall k | 0 <= k < |d| :: IsHexDigit(d[k])
    ensures |d| < |s| ==> !IsHexDigit(s[|d|])
  {
    if |s| == 0 || !IsHexDigit(s[0]) then [] else [s[0]] + HexRun(s[1..])
  }

  function Pow16(n: nat): (p: nat)
    ensures p >= 1
  {
    if n == 0 then 1 else 16 * Pow16(n - 1)
  }

  /** The number a string of hex digits denotes, most significant first. */
  function HexValue(d: string): (v: nat)
    requires forall k | 0 <= k < |d| :: IsHexDigit(d[k])
    ensures v < Pow16(|d|)
  {
    if |d| == 0 then 0 else HexValue(d[..|d| - 1]) * 16 + HexDigitValue(d[|d| - 1])
  }

  const UInt32Max: nat := 0xFFFF_FFFF

  /** Text that `scanHexInt32` reads behind a "0x" or "0X" prefix. */
  predicate HasHexPrefix(s: string) {
    |s| > 2 && s[0] == '0' && (s[1] == 'x' || s[1] == 'X') && IsHexDigit(s[2])
  }

  /**
   * `Scanner.scanHexInt32` on text without surrounding blanks: the run of
   * hex digits at the start, after an optional "0x"; 0 when there is none
   * (the scanned variable keeps its initial 0); `UINT32_MAX` on overflow.
   */
  function ScanHexInt32(s: string): (v: nat)
    ensures v <= UInt32Max
    ensures v < Pow16(|s|)
    ensures !HasHexPrefix(s) && HexValue(HexRun(s)) <= UInt32Max ==> v == HexValue(HexRun(s))
    ensures HasHexPrefix(s) && HexValue(HexRun(s[2..])) <= UInt32Max ==> v == HexValue(HexRun(s[2..]))
    ensures !HasHexPrefix(s) && HexValue(HexRun(s)) > UInt32Max ==> v == UInt32Max
    ensures HasHexPrefix(s) && HexValue(HexRun(s[2..])) > UInt32Max ==> v == UInt32Max
  {
    var digits := if HasHexPrefix(s) then HexRun(s[2..]) else HexRun(s);
    var value := HexValue(digits);
    PowMonotone(|digits|, |s|);
    if value > UInt32Max then UInt32Max else value
  }

  lemma PowValues()
    ensures Pow16(3) == 0x1000 && Pow16(6) == 0x100_0000 && Pow16(8) == 0x1_0000_0000
  {
    assert Pow16(2) == 0x100;
    assert Pow16(4) == 0x1_0000;
    assert Pow16(6) == 0x100_0000;
  }

  lemma {:induction false} PowMonotone(m: nat, n: nat)
    requires m <= n
    ensures Pow16(m) <= Pow16(n)
    decreases n
  {
    if m < n {
      PowMonotone(m, n - 1);
    }
  }

  // ---- `UIColor(hexString:)` -----------------------------------------------------

  datatype ARGB = ARGB(a: nat, r: nat, g: nat, b: nat)

  predicate IsByteColour(c: ARGB) {
    c.a < 256 && c.r < 256 && c.g < 256 && c.b < 256
  }

  /**
   * The components, out of 255, that `UIColor(hexString:)` reads: 3 digits
   * are one nibble per component, scaled by 17 and opaque; 6 digits are one
   * byte per component and opaque; 8 digits carry alpha in the top byte.
   * Any other count of characters gives alpha 1, red 1, green 1, blue 0.
   */
  function HexStringComponents(hexString: string): (c: ARGB)
    ensures IsByteColour(c)
    ensures var hex := Trim(hexString); |hex| != 3 && |hex| != 6 && |hex| != 8 ==> c == ARGB(1, 1, 1, 0)
    ensures var hex := Trim(hexString); |hex| == 3 || |hex| == 6 ==> c.a == 255
  {
    var hex := Trim(hexString);
    var n := ScanHexInt32(hex);
    PowValues();
    if |hex| == 3 then TwelveBit(n)
    else if |hex| == 6 then TwentyFourBit(n)
    else if |hex| == 8 then ThirtyTwoBit(n)
    else ARGB(1, 1, 1, 0)
  }

  /** `(255, (int >> 8) * 17, (int >> 4 & 0xF) * 17, (int & 0xF) * 17)`. */
  function TwelveBit(n: nat): (c: ARGB)
    requires n < 0x1000
    ensures IsByteColour(c) && c.a == 255
  {
    ARGB(255, (n / 0x100) * 17, (n / 0x10 % 0x10) * 17, (n % 0x10) * 17)
  }

  /** `(255, int >> 16, int >> 8 & 0xFF, int & 0xFF)`. */
  function TwentyFourBit(n: nat): (c: ARGB)
    requires n < 0x100_0000
    ensures IsByteColour(c) && c.a == 255
  {
    ARGB(255, n / 0x1_0000, n / 0x100 % 0x100, n % 0x100)
  }

  /** `(int >> 24, int >> 16 & 0xFF, int >> 8 & 0xFF, int & 0xFF)`. */
  function ThirtyTwoBit(n: nat): (c: ARGB)
    requires n <= UInt32Max
    ensures IsByteColour(c)
  {
    ARGB(n / 0x100_0000, n / 0x1_0000 % 0x100, n / 0x100 % 0x100, n % 0x100)
  }

  // ---- reading back what was written ----------------------------------------------

  function HexChar(d: nat): (c: char)
    requires d < 16
    ensures IsHexDigit(c) && HexDigitValue(c) == d && IsAlphanumeric(c)
  {
    if d < 10 then ('0' as int + d) as char else ('a' as int + d - 10) as char
  }

  /** `v` as exactly `n` hex digits, most significant first. */
  function HexDigits(v: nat, n: nat): (s: string)
    requires v < Pow16(n)
    ensures |s| == n
    ensures forall k | 0 <= k < |s| :: IsHexDigit(s[k]) && IsAlphanumeric(s[k])
    ensures HexValue(s) == v
  {
    if n == 0 then []
    else
      var s := HexDigits(v / 16, n - 1) + [HexChar(v % 16)];
      assert s[..|s| - 1] == HexDigits(v / 16, n - 1);
      s
  }

  /** Text made only of hex digits scans to its own value, as long as that fits 32 bits. */
  lemma {:induction false} ScanAllDigits(s: string)
    requires forall k | 0 <= k < |s| :: IsHexDigit(s[k])
    requires |s| <= 8
    ensures ScanHexInt32(s) == HexValue(s)
  {
    HexRunAllDigits(s);
    PowMonotone(|s|, 8);
    PowValues();
  }

  lemma {:induction false} HexRunAllDigits(s: string)
    requires forall k | 0 <= k < |s| :: IsHexDigit(s[k])
    ensures HexRun(s) == s
    decreases |s|
  {
    if |s| > 0 {
      HexRunAllDigits(s[1..]);
    }
  }

  lemma {:induction false} TrimAllAlphanumeric(s: string)
    requires |s| > 0 && IsAlphanumeric(s[0]) && IsAlphanumeric(s[|s| - 1])
    ensures Trim("#" + s) == s
  {
    var t := "#" + s;
    assert FirstAlphanumeric(t, 0) == 1;
    assert t[1..|t|] == s;
  }

  /** A `#` and hex digits: the components are read from the digits' value, by their count. */
  lemma {:induction false} ComponentsOfDigits(s: string)
    requires forall k | 0 <= k < |s| :: IsHexDigit(s[k]) && IsAlphanumeric(s[k])
    requires |s| == 3 || |s| == 6 || |s| == 8
    ensures |s| == 3 ==> HexValue(s) < 0x1000 && HexStringComponents("#" + s) == TwelveBit(HexValue(s))
    ensures |s| == 6 ==> HexValue(s) < 0x100_0000 && HexStringComponents("#" + s) == TwentyFourBit(HexValue(s))
    ensures |s| == 8 ==> HexValue(s) <= UInt32Max && HexStringComponents("#" + s) == ThirtyTwoBit(HexValue(s))
  {
    TrimAllAlphanumeric(s);
    ScanAllDigits(s);
    PowValues();
  }

  lemma {:induction false} TwelveBitNibbles(r: nat, g: nat, b: nat)
    requires r < 16 && g < 16 && b < 16
    ensures r * 0x100 + g * 0x10 + b < 0x1000
    ensures TwelveBit(r * 0x100 + g * 0x10 + b) == ARGB(255, r * 17, g * 17, b * 17)
  {
    var v := r * 0x100 + g * 0x10 + b;
    assert v % 0x10 == b;
    assert v / 0x10 == r * 0x10 + g;
    assert (r * 0x10 + g) % 0x10 == g;
    assert v / 0x100 == r;
  }

  lemma {:induction false} TwentyFourBitBytes(r: nat, g: nat, b: nat)
    requires r < 256 && g < 256 && b < 256
    ensures r * 0x1_0000 + g * 0x100 + b < 0x100_0000
    ensures TwentyFourBit(r * 0x1_0000 + g * 0x100 + b) == ARGB(255, r, g, b)
  {
    var v := r * 0x1_0000 + g * 0x100 + b;
    assert v / 0x100 == r * 0x100 + g;
    assert v / 0x1_0000 == r;
  }

  lemma {:induction false} ThirtyTwoBitBytes(a: nat, r: nat, g: nat, b: nat)
    requires a < 256 && r < 256 && g < 256 && b < 256
    ensures a * 0x100_0000 + r * 0x1_0000 + g * 0x100 + b <= UInt32Max
    ensures ThirtyTwoBit(a * 0x100_0000 + r * 0x1_0000 + g * 0x100 + b) == ARGB(a, r, g, b)
  {
    var v := a * 0x100_0000 + r * 0x1_0000 + g * 0x100 + b;
    assert v / 0x100 == a * 0x1_0000 + r * 0x100 + g;
    assert v / 0x1_0000 == a * 0x100 + r;
    assert v / 0x100_0000 == a;
  }

  /** A `#rrggbb` colour reads back as its three bytes, opaque. */
  lemma {:induction false} SixDigitRoundTrip(v: nat, r: nat, g: nat, b: nat)
    requires r < 256 && g < 256 && b < 256 && v == r * 0x1_0000 + g * 0x100 + b
    ensures v < 0x100_0000 == Pow16(6)
    ensures HexStringComponents("#" + HexDigits(v, 6)) == ARGB(255, r, g, b)
  {
    PowValues();
    var s := HexDigits(v, 6);
    ComponentsOfDigits(s);
    assert HexStringComponents("#" + s) == TwentyFourBit(v);
    TwentyFourBitBytes(r, g, b);
    assert TwentyFourBit(v) == ARGB(255, r, g, b);
  }

  /** A `#aarrggbb` colour reads back as its four bytes. */
  lemma {:induction false} EightDigitRoundTrip(a: nat, r: nat, g: nat, b: nat)
    requires a < 256 && r < 256 && g < 256 && b < 256
    ensures HexStringComponents("#" + HexDigits(a * 0x100_0000 + r * 0x1_0000 + g * 0x100 + b, 8)) == ARGB(a, r, g, b)
  {
    PowValues();
    var v := a * 0x100_0000 + r * 0x1_0000 + g * 0x100 + b;
    var s := HexDigits(v, 8);
    ComponentsOfDigits(s);
    assert HexStringComponents("#" + s) == ThirtyTwoBit(v);
    ThirtyTwoBitBytes(a, r, g, b);
    assert ThirtyTwoBit(v) == ARGB(a, r, g, b);
  }

  /** A `#rgb` colour reads back as each nibble times 17 (so `f` is 255), opaque. */
  lemma {:induction false} ThreeDigitRoundTrip(r: nat, g: nat, b: nat)
    requires r < 16 && g < 16 && b < 16
    ensures HexStringComponents("#" + HexDigits(r * 0x100 + g * 0x10 + b, 3)) == ARGB(255, r * 17, g * 17, b * 17)
  {
    PowValues();
    var v := r * 0x100 + g * 0x10 + b;
    var s := HexDigits(v, 3);
    ComponentsOfDigits(s);
    assert HexStringComponents("#" + s) == TwelveBit(v);
    TwelveBitNibbles(r, g, b);
    assert TwelveBit(v) == ARGB(255, r * 17, g * 17, b * 17);
  }

  /** The two constructors agree: `#rrggbb` text gives the bytes `UIColor(hex:)` takes from the same number. */
  lemma {:induction false} SixDigitsAgreeWithHex(hex: nat)
    requires hex < 0x100_0000
    ensures var c := HexComponents(hex);
      HexStringComponents("#" + HexDigits(hex, 6)) == ARGB(255, c.r, c.g, c.b)
  {
    var c := HexComponents(hex);
    SixDigitRoundTrip(hex, c.r, c.g, c.b);
  }
}
