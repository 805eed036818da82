/** The ripple colour of the web-app shell's buttons, over the reals. */
module ButtonRipple {
  import opened Wrappers

  // ---- JavaScript's numbers, without rounding errors ----

  /** The `%` of JavaScript: the result has the sign of the dividend. */
  function Mod(x: real, n: real): real
    requires n > 0.0
  {
    if x >= 0.0 then x - n * (x / n).Floor as real else -(-x - n * (-x / n).Floor as real)
  }

  function Abs(x: real): real { if x < 0.0 then -x else x }
  function Round(x: real): int { (x + 0.5).Floor }
  function Max(a: int, b: int): int { if a < b then b else a }
  function Min(a: int, b: int): int { if a < b then a else b }

  /** The multiple of `n` that `Mod` takes away. */
  lemma ModIs(x: real, n: real, k: int)
    requires n > 0.0 && 0.0 <= k as real * n <= x < (k + 1) as real * n
    ensures Mod(x, n) == x - n * k as real
  {
    var q := x / n;
    assert q * n == x;
    FloorIs(q, x, n, k);
    assert k as real * n == n * k as real;
  }

  lemma FloorIs(q: real, x: real, n: real, k: int)
    requires n > 0.0 && q * n == x && k as real * n <= x < (k + 1) as real * n
    ensures q.Floor == k
  {
    var low, high := k as real, (k + 1) as real;
    SmallerQuotient(low, q, n);
    assert q * n < high * n;
    LessQuotient(q, high, n);
  }

  // ---- The specification: plain proportional scaling ----

  function Brightest(red: int, green: int, blue: int): int { Max(Max(red, green), blue) }

  /** 32 steps darker for a bright colour, 32 steps lighter for a dark one. */
  function NextValue(maximum: int): int { if maximum > 128 then maximum - 32 else maximum + 32 }

  /** One channel scaled by `nextValue / maximum`; black becomes a grey. */
  function Scaled(channel: int, maximum: int): real
    requires maximum >= 0
  {
    if maximum == 0 then NextValue(0) as real
    else channel as real * NextValue(maximum) as real / maximum as real
  }

  lemma ScaledStaysInRange(channel: int, maximum: int)
    requires 0 <= channel <= maximum <= 255
    ensures 0.0 <= Scaled(channel, maximum) <= NextValue(maximum) as real <= 255.0
    ensures channel == maximum ==> Scaled(channel, maximum) == NextValue(maximum) as real
  {
    if maximum > 0 {
      ScaledIs(channel, maximum);
      ScaledReal(channel as real, NextValue(maximum) as real, maximum as real);
    }
    hide Scaled;
  }

  lemma ScaledIs(channel: int, maximum: int)
    requires maximum > 0
    ensures Scaled(channel, maximum) == channel as real * NextValue(maximum) as real / maximum as real
  {}

  lemma ScaledReal(c: real, n: real, m: real)
    requires 0.0 <= c <= m && 0.0 <= n && 0.0 < m
    ensures 0.0 <= c * n / m <= n && (c == m ==> c * n / m == n)
  {
    var q, product := c * n / m, c * n;
    assert q * m == product;
    ProductOrder(c, m, n);
    assert n * m == m * n;
    SmallerQuotient(0.0, q, m);
    SmallerQuotient(q, n, m);
    if c == m {
      SmallerQuotient(n, q, m);
    }
  }

  lemma ProductOrder(a: real, b: real, n: real)
    requires 0.0 <= a <= b && 0.0 <= n
    ensures 0.0 <= a * n <= b * n
  {}

  // ---- The code's route through hue, saturation and value ----

  /** The hue in degrees, as the code computes it. */
  function Hue(red: int, green: int, blue: int): real {
    var maximum := Brightest(red, green, blue);
    var delta := maximum - Darkest(red, green, blue);
    var hue :=
      if delta != 0 && maximum == red then 60.0 * Mod((green - blue) as real / delta as real, 6.0)
      else if delta != 0 && maximum == green then 60.0 * ((blue - red) as real / delta as real + 2.0)
      else if delta != 0 then 60.0 * ((red - green) as real / delta as real + 4.0)
      else 0.0;
    if hue < 0.0 then hue + 360.0 else hue
  }

  function Darkest(red: int, green: int, blue: int): int { Min(Min(red, green), blue) }

  /** The factor of the middle channel. */
  function Tent(hue: real): real { 1.0 - Abs(Mod(hue / 60.0, 2.0) - 1.0) }

  lemma TentAt(h: real)
    requires 0.0 <= h < 6.0
    ensures Tent(60.0 * h)
         == if h < 1.0 then h else if h < 2.0 then 2.0 - h else if h < 3.0 then h - 2.0
            else if h < 4.0 then 4.0 - h else if h < 5.0 then h - 4.0 else 6.0 - h
  {
    assert 60.0 * h / 60.0 == h;
    if h < 2.0 { ModIs(h, 2.0, 0); } else if h < 4.0 { ModIs(h, 2.0, 1); } else { ModIs(h, 2.0, 2); }
  }

  /** The part of the hue that lies within its sextant. */
  function Part(difference: int, delta: int): real
    requires delta > 0
  {
    difference as real / delta as real
  }

  lemma PartInRange(difference: int, delta: int)
    requires delta > 0
    ensures 0 <= difference ==> 0.0 <= Part(difference, delta)
    ensures difference <= delta ==> Part(difference, delta) <= 1.0
    ensures difference < delta ==> Part(difference, delta) < 1.0
    ensures 0 < difference ==> 0.0 < Part(difference, delta)
    ensures Part(-difference, delta) == -Part(difference, delta)
    ensures difference == delta ==> Part(difference, delta) == 1.0
    ensures difference == 0 ==> Part(difference, delta) == 0.0
  {
    PartReal(difference as real, delta as real);
    PartReal((-difference) as real, delta as real);
    NegatedQuotient(difference as real, delta as real);
  }

  lemma PartReal(d: real, h: real)
    requires h > 0.0
    ensures 0.0 <= d ==> 0.0 <= d / h
    ensures 0.0 < d ==> 0.0 < d / h
    ensures d <= h ==> d / h <= 1.0
    ensures d < h ==> d / h < 1.0
    ensures d == h ==> d / h == 1.0
    ensures d == 0.0 ==> d / h == 0.0
  {
    var p := d / h;
    assert p * h == d && 0.0 * h == 0.0 && 1.0 * h == h;
    if 0.0 <= d { SmallerQuotient(0.0, p, h); }
    if 0.0 < d { LessQuotient(0.0, p, h); }
    if d <= h { SmallerQuotient(p, 1.0, h); }
    if d < h { LessQuotient(p, 1.0, h); }
    if d == h { SmallerQuotient(1.0, p, h); }
    if d == 0.0 { SmallerQuotient(p, 0.0, h); }
  }

  lemma NegatedQuotient(d: real, h: real)
    requires h > 0.0
    ensures (-d) / h == -(d / h)
  {
    var p, q := d / h, (-d) / h;
    assert q * h == -d && p * h == d;
    assert -p * h == -(p * h);
    SmallerQuotient(q, -p, h);
    SmallerQuotient(-p, q, h);
  }

  /** The hue of a colour by its sextant: which channel is brightest, and which of the others is darkest. */
  lemma HueBySextant(red: int, green: int, blue: int)
    requires var d := Brightest(red, green, blue) - Darkest(red, green, blue); d > 0
    ensures var maximum := Brightest(red, green, blue);
            var d := maximum - Darkest(red, green, blue);
            Hue(red, green, blue) == 60.0 *
              if maximum == red then
                if green >= blue then Part(green - blue, d) else 6.0 - Part(blue - green, d)
              else if maximum == green then
                if red >= blue then 2.0 - Part(red - blue, d) else 2.0 + Part(blue - red, d)
              else
                if green >= red then 4.0 - Part(green - red, d) else 4.0 + Part(red - green, d)
  {
    hide Part;
    var d := Brightest(red, green, blue) - Darkest(red, green, blue);
    PartInRange(green - blue, d);
    PartInRange(blue - green, d);
    PartInRange(red - blue, d);
    PartInRange(green - red, d);
    PartUnfolds(green - blue, d);
    PartUnfolds(blue - red, d);
    PartUnfolds(red - green, d);
    if Brightest(red, green, blue) == red {
      ModSmall(Part(green - blue, d));
    }
  }

  lemma PartUnfolds(difference: int, delta: int)
    requires delta > 0
    ensures difference as real / delta as real == Part(difference, delta)
  {}

  lemma ModSmall(x: real)
    requires -1.0 <= x <= 1.0
    ensures Mod(x, 6.0) == x
  {
    if x >= 0.0 { ModIs(x, 6.0, 0); } else { ModIs(-x, 6.0, 0); }
  }

  function Middle(red: int, green: int, blue: int): int {
    red + green + blue - Brightest(red, green, blue) - Darkest(red, green, blue)
  }

  /** The hue's sextant names the brightest and the darkest channel, ties included, and its position
      inside the sextant is where the middle channel lies between them. */
  lemma SextantNamesChannels(red: int, green: int, blue: int)
    ensures var hue, high, low := Hue(red, green, blue), Brightest(red, green, blue), Darkest(red, green, blue);
            && (high > low ==> Tent(hue) == Part(Middle(red, green, blue) - low, high - low))
            && (hue < 60.0 ==> red == high && blue == low)
            && (60.0 <= hue < 120.0 ==> green == high && blue == low)
            && (120.0 <= hue < 180.0 ==> green == high && red == low)
            && (180.0 <= hue < 240.0 ==> blue == high && red == low)
            && (240.0 <= hue < 300.0 ==> blue == high && green == low)
            && (300.0 <= hue ==> red == high && green == low)
  {
    hide Hue, Tent, Part;
    var d := Brightest(red, green, blue) - Darkest(red, green, blue);
    if d == 0 {
      GreyHue(red, green, blue);
      return;
    }
    HueBySextant(red, green, blue);
    PartInRange(green - blue, d);
    PartInRange(blue - green, d);
    PartInRange(red - blue, d);
    PartInRange(blue - red, d);
    PartInRange(green - red, d);
    PartInRange(red - green, d);
    if Brightest(red, green, blue) == red {
      TentAt(if green >= blue then Part(green - blue, d) else 6.0 - Part(blue - green, d));
    } else if Brightest(red, green, blue) == green {
      TentAt(if red >= blue then 2.0 - Part(red - blue, d) else 2.0 + Part(blue - red, d));
    } else {
      TentAt(if green >= red then 4.0 - Part(green - red, d) else 4.0 + Part(red - green, d));
    }
  }

  lemma Cancel(a: real, b: real, h: real)
    requires h > 0.0 && a * h == b * h
    ensures a == b
  {}

  lemma ShareTimes(next: real, d: real, h: real, part: real, chroma: real, p: real)
    requires chroma * h == next * d && p * d == part
    ensures (chroma * p) * h == next * part
  {
    calc {
      (chroma * p) * h;
      (chroma * h) * p;
      next * d * p;
      next * (p * d);
    }
  }

  function Saturation(maximum: int, delta: int): real {
    if maximum == 0 then 0.0 else delta as real / maximum as real
  }

  function Chroma(high: int, low: int): real {
    NextValue(high) as real * Saturation(high, high - low)
  }

  /** The channel value between the chroma and zero, the code's `x`. */
  function Between(chroma: real, hue: real): real { chroma * Tent(hue) }

  lemma NoChroma(high: int)
    ensures Chroma(high, high) == 0.0
  {}

  lemma ChromaTimes(high: int, low: int)
    requires high > 0
    ensures Chroma(high, low) * high as real == NextValue(high) as real * (high - low) as real
  {
    var n, d, h := NextValue(high) as real, (high - low) as real, high as real;
    var s := d / h;
    assert s * h == d;
    assert n * s * h == n * (s * h);
  }

  lemma ScaledTimes(channel: int, high: int)
    requires high > 0
    ensures Scaled(channel, high) * high as real == channel as real * NextValue(high) as real
  {
    var c, n, h := channel as real, NextValue(high) as real, high as real;
    assert c * n / h * h == c * n;
  }

  lemma PartTimes(difference: int, d: int)
    requires d > 0
    ensures Part(difference, d) * d as real == difference as real
  {}

  /** Value minus chroma is the scaled darkest channel; adding a share of the chroma scales the others. */
  lemma SharesScale(high: int, low: int, channel: int)
    requires 0 <= low < high && low <= channel <= high
    ensures Chroma(high, low) * Part(channel - low, high - low) + (NextValue(high) as real - Chroma(high, low))
         == Scaled(channel, high)
  {
    hide Chroma, Part, Scaled, NextValue;
    var n, h, chroma := NextValue(high) as real, high as real, Chroma(high, low);
    var p := Part(channel - low, high - low);
    ChromaTimes(high, low);
    PartTimes(channel - low, high - low);
    ScaledTimes(channel, high);
    ShareTimes(n, (high - low) as real, h, (channel - low) as real, chroma, p);
    SumTimes(chroma * p, n - chroma, h, n, channel, high, low, chroma);
    Cancel(chroma * p + (n - chroma), Scaled(channel, high), h);
  }

  lemma SumTimes(share: real, rest: real, h: real, n: real, channel: int, high: int, low: int, chroma: real)
    requires h == high as real && share * h == n * (channel - low) as real
    requires chroma * h == n * (high - low) as real && rest == n - chroma
    ensures (share + rest) * h == channel as real * n
  {
    assert rest * h == n * h - chroma * h;
    assert (share + rest) * h == share * h + rest * h;
  }

  /** The three values the code combines are the three scaled channels, from darkest to brightest. */
  lemma ChannelValues(red: int, green: int, blue: int)
    requires 0 <= red <= 255 && 0 <= green <= 255 && 0 <= blue <= 255
    ensures var high, low := Brightest(red, green, blue), Darkest(red, green, blue);
            var chroma := Chroma(high, low);
            var m := NextValue(high) as real - chroma;
            && m == Scaled(low, high)
            && Between(chroma, Hue(red, green, blue)) + m == Scaled(Middle(red, green, blue), high)
            && chroma + m == Scaled(high, high)
  {
    hide Hue, Tent, Scaled, Part, Chroma;
    var high, low := Brightest(red, green, blue), Darkest(red, green, blue);
    ScaledStaysInRange(high, high);
    if high == low {
      NoChroma(high);
    } else {
      SextantNamesChannels(red, green, blue);
      PartInRange(0, high - low);
      SharesScale(high, low, Middle(red, green, blue));
      SharesScale(high, low, low);
    }
  }

  /** The colour route of the code is plain scaling: every channel is multiplied by `nextValue / maximum`. */
  method RippleChannels(red: int, green: int, blue: int) returns (r: real, g: real, b: real)
    requires 0 <= red <= 255 && 0 <= green <= 255 && 0 <= blue <= 255
    ensures var maximum := Brightest(red, green, blue);
            r == Scaled(red, maximum) && g == Scaled(green, maximum) && b == Scaled(blue, maximum)
  {
    hide Hue, Tent, Scaled, Part, Chroma, Between;
    var maximum := Brightest(red, green, blue);
    var minimum := Darkest(red, green, blue);
    var hue := Hue(red, green, blue);
    var nextValue := Max(0, Min(255, maximum + (if maximum > 128 then -32 else 32))) as real;
    var chroma := Chroma(maximum, minimum);
    var x := Between(chroma, hue);
    var m := nextValue - chroma;
    ChannelValues(red, green, blue);
    SextantNamesChannels(red, green, blue);
    var nextRed, nextGreen, nextBlue := 0.0, 0.0, 0.0;
    if hue < 60.0 {
      nextRed, nextGreen := chroma, x;
    } else if hue < 120.0 {
      nextRed, nextGreen := x, chroma;
    } else if hue < 180.0 {
      nextGreen, nextBlue := chroma, x;
    } else if hue < 240.0 {
      nextGreen, nextBlue := x, chroma;
    } else if hue < 300.0 {
      nextRed, nextBlue := x, chroma;
    } else {
      nextRed, nextBlue := chroma, x;
    }
    r, g, b := nextRed + m, nextGreen + m, nextBlue + m;
  }

  lemma GreyHue(red: int, green: int, blue: int)
    requires Brightest(red, green, blue) == Darkest(red, green, blue)
    ensures Hue(red, green, blue) == 0.0
  {}

  // ---- The colour text ----

  function DigitValue(c: char): Option<int> {
    if '0' <= c <= '9' then Some(c as int - '0' as int)
    else if 'a' <= c <= 'f' then Some(c as int - 'a' as int + 10)
    else if 'A' <= c <= 'F' then Some(c as int - 'A' as int + 10)
    else None
  }

  function Digit(n: int): char
    requires 0 <= n < 16
  {
    "0123456789abcdef"[n]
  }

  lemma DigitReads(n: int)
    requires 0 <= n < 16
    ensures DigitValue(Digit(n)) == Some(n)
  {}

  /** What the pattern `^#[0-9a-f]{6}$`, case ignored, accepts. */
  predicate IsColor(text: string) {
    |text| == 7 && text[0] == '#' && forall i :: 1 <= i < 7 ==> DigitValue(text[i]).Some?
  }

  /** `parseInt` of two hexadecimal digits. */
  function ByteAt(text: string, at: nat): (n: int)
    requires at + 1 < |text| && DigitValue(text[at]).Some? && DigitValue(text[at + 1]).Some?
    ensures 0 <= n <= 255
  {
    16 * DigitValue(text[at]).value + DigitValue(text[at + 1]).value
  }

  function Red(color: string): int requires IsColor(color) { ByteAt(color, 1) }
  function Green(color: string): int requires IsColor(color) { ByteAt(color, 3) }
  function Blue(color: string): int requires IsColor(color) { ByteAt(color, 5) }

  /** `toString(16)` of a byte. */
  function ToHex(n: int): string
    requires 0 <= n <= 255
  {
    if n < 16 then [Digit(n)] else [Digit(n / 16), Digit(n % 16)]
  }

  function HexByte(value: real): string {
    var text := ToHex(Max(0, Min(255, Round(value))));
    (if |text| < 2 then "0" else "") + text
  }

  lemma HexByteReads(value: real)
    ensures var t := HexByte(value);
            |t| == 2 && DigitValue(t[0]).Some? && DigitValue(t[1]).Some?
            && ByteAt(t, 0) == Max(0, Min(255, Round(value)))
  {
    hide Digit, DigitValue, Round;
    var n := Max(0, Min(255, Round(value)));
    DigitReads(0);
    ZeroDigit();
    DigitReads(n / 16);
    DigitReads(n % 16);
  }

  lemma ZeroDigit()
    ensures DigitValue('0') == Some(0)
  {}

  /** No channel reaches a clamp: rounding the scaled value already gives a byte. */
  lemma NoClampBinds(channel: int, maximum: int)
    requires 0 <= channel <= maximum <= 255
    ensures 0 <= Round(Scaled(channel, maximum)) <= NextValue(maximum) <= 255
    ensures channel == maximum ==> Round(Scaled(channel, maximum)) == NextValue(maximum)
  {
    ScaledStaysInRange(channel, maximum);
  }

  /** The number nearest to the channel's share of the new brightness: 32 less for a colour brighter than 128, and 32
      more for any other. Black becomes a grey of 32. */
  predicate RippleOf(channel: int, maximum: int, ripple: int) {
    var next := if maximum > 128 then maximum - 32 else maximum + 32;
    if maximum == 0 then ripple == 32
    else 2 * channel * next - maximum < 2 * ripple * maximum <= 2 * channel * next + maximum
  }

  lemma RoundedScaled(channel: int, maximum: int)
    requires 0 <= channel <= maximum <= 255
    ensures RippleOf(channel, maximum, Round(Scaled(channel, maximum)))
    ensures channel == maximum ==>
      Round(Scaled(channel, maximum)) == if maximum > 128 then maximum - 32 else maximum + 32
  {
    NoClampBinds(channel, maximum);
    if maximum > 0 {
      ScaledTimes(channel, maximum);
      hide Scaled;
      RoundTimes(Scaled(channel, maximum), maximum, channel * NextValue(maximum));
    }
  }

  lemma RoundTimes(x: real, h: int, product: int)
    requires h > 0 && x * h as real == product as real
    ensures 2 * product - h < 2 * Round(x) * h <= 2 * product + h
  {
    var r, m := Round(x), h as real;
    assert x - 0.5 < r as real <= x + 0.5;
    hide Round;
    LessFactor(x - 0.5, r as real, m);
    AtMostFactor(r as real, x + 0.5, m);
    HalfMore(x, m);
    IntProduct(r, h);
    ToInts(product, h, r * h);
    assert 2 * r * h == 2 * (r * h);
  }

  lemma HalfMore(x: real, m: real)
    ensures (x - 0.5) * m == x * m - 0.5 * m && (x + 0.5) * m == x * m + 0.5 * m
  {}

  lemma IntProduct(r: int, h: int)
    ensures (r * h) as real == r as real * h as real
  {}

  lemma ToInts(product: int, h: int, rh: int)
    requires product as real - 0.5 * h as real < rh as real <= product as real + 0.5 * h as real
    ensures 2 * product - h < 2 * rh <= 2 * product + h
  {}

  lemma AtMostFactor(a: real, b: real, h: real)
    requires a <= b && h > 0.0
    ensures a * h <= b * h
  {}

  lemma LessFactor(a: real, b: real, h: real)
    requires a < b && h > 0.0
    ensures a * h < b * h
  {}

  function CapitalDigit(n: int): char
    requires 0 <= n < 16
  {
    "0123456789ABCDEF"[n]
  }

  /** The sixteen digits, small or capital, have their values, and no other character has one. */
  lemma DigitsAre(c: char, n: int)
    ensures DigitValue(c) == Some(n) <==> 0 <= n < 16 && (c == Digit(n) || c == CapitalDigit(n))
  {}

  /** `buttonRippleForBackground`: nothing for a text that is no colour; otherwise the colour whose every
      channel is the rounded scaled channel of the background. */
  method ButtonRippleForBackground(value: string) returns (result: Option<string>)
    ensures result.Some? <==> IsColor(value)
    ensures result.Some? ==> IsColor(result.value)
    ensures result.Some? ==>
      var maximum := Brightest(Red(value), Green(value), Blue(value));
      && Red(result.value) == Round(Scaled(Red(value), maximum))
      && Green(result.value) == Round(Scaled(Green(value), maximum))
      && Blue(result.value) == Round(Scaled(Blue(value), maximum))
    ensures result.Some? ==>
      var maximum := Brightest(Red(value), Green(value), Blue(value));
      && RippleOf(Red(value), maximum, Red(result.value))
      && RippleOf(Green(value), maximum, Green(result.value))
      && RippleOf(Blue(value), maximum, Blue(result.value))
  {
    hide Scaled, HexByte, DigitValue, Round, RippleOf, NextValue;
    if !IsColor(value) { return None; }
    var red, green, blue := Red(value), Green(value), Blue(value);
    var r, g, b := RippleChannels(red, green, blue);
    HexByteReads(r);
    HexByteReads(g);
    HexByteReads(b);
    NoClampBinds(red, Brightest(red, green, blue));
    NoClampBinds(green, Brightest(red, green, blue));
    NoClampBinds(blue, Brightest(red, green, blue));
    RoundedScaled(red, Brightest(red, green, blue));
    RoundedScaled(green, Brightest(red, green, blue));
    RoundedScaled(blue, Brightest(red, green, blue));
    var text := "#" + HexByte(r) + HexByte(g) + HexByte(b);
    assert text == ['#', HexByte(r)[0], HexByte(r)[1], HexByte(g)[0], HexByte(g)[1], HexByte(b)[0], HexByte(b)[1]];
    result := Some(text);
  }

  /** The ripple keeps the order of the channels and moves the brightest one to exactly the next value. */
  lemma RippleKeepsShape(c: int, d: int, maximum: int)
    requires 0 <= c <= d <= maximum <= 255
    ensures Round(Scaled(c, maximum)) <= Round(Scaled(d, maximum)) <= NextValue(maximum)
    ensures d == maximum ==> Round(Scaled(d, maximum)) == NextValue(maximum)
  {
    hide Scaled;
    NoClampBinds(d, maximum);
    if maximum > 0 {
      ScaledTimes(c, maximum);
      ScaledTimes(d, maximum);
      SmallerFactor(c, d, NextValue(maximum) as real);
      SmallerQuotient(Scaled(c, maximum), Scaled(d, maximum), maximum as real);
    }
  }

  lemma SmallerFactor(c: int, d: int, n: real)
    requires c <= d && n >= 0.0
    ensures c as real * n <= d as real * n
  {}

  lemma SmallerQuotient(a: real, b: real, h: real)
    requires h > 0.0 && a * h <= b * h
    ensures a <= b
  {}

  lemma LessQuotient(a: real, b: real, h: real)
    requires h > 0.0 && a * h < b * h
    ensures a < b
  {}
}
