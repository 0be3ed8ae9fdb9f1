/**
 * The Camera Raw processor: its adjustment parameters (reset and preset
 * merge), the colour and light-pollution pixel arithmetic, the RAW 16-bit to
 * 8-bit conversion, the histograms, the load dispatch on the file extension
 * and the order in which process_image applies the adjustments.  A picture
 * is PIL's "RGB" image as numpy sees it, its pixels in row-major order; the
 * float32 working copies of numpy are `real` arrays.
 */
module CameraRaw {
  import opened Common

  // ------------------------------------------------------------- pictures

  /** One pixel: red, green and blue samples (numpy's last axis). */
  datatype Rgb<T> = Rgb(r: T, g: T, b: T)

  /** The three colour channels, in numpy's channel order 0, 1, 2. */
  datatype Channel = Red | Green | Blue

  function Sample<T>(p: Rgb<T>, c: Channel): T {
    match c
    case Red => p.r
    case Green => p.g
    case Blue => p.b
  }

  /** A width x height image, its pixels row by row. */
  datatype Raster<T> = Raster(width: nat, height: nat, pixels: seq<T>)

  /** The pixels fill the width x height grid. */
  predicate Sized<T>(img: Raster<T>) {
    |img.pixels| == img.width * img.height
  }

  /** An 8-bit RGB image. */
  type Picture = Raster<Rgb<Byte>>

  /** One 16-bit sample, as rawpy's postprocess(output_bps=16) returns it. */
  type Word = x: int | 0 <= x <= 65535

  /** A 16-bit RGB image. */
  type RawPicture = Raster<Rgb<Word>>

  /** The samples of one channel, pixel by pixel (img_array[:, :, c]). */
  function ChannelSamples(img: Picture, c: Channel): (s: seq<Byte>)
    ensures |s| == |img.pixels|
  {
    seq(|img.pixels|, i requires 0 <= i < |img.pixels| => Sample(img.pixels[i], c))
  }

  /** np.array(image, dtype=np.float32). */
  function AsReal(p: Rgb<Byte>): Rgb<real> {
    Rgb(p.r as real, p.g as real, p.b as real)
  }

  /** np.clip(..., 0, 255).astype(np.uint8) on one pixel. */
  function ClipRgb(p: Rgb<real>): Rgb<Byte> {
    Rgb(ClipToByte(p.r), ClipToByte(p.g), ClipToByte(p.b))
  }

  /** The clipped 8-bit image of a float buffer. */
  function Quantized(buf: seq<Rgb<real>>): (px: seq<Rgb<Byte>>)
    ensures |px| == |buf|
  {
    seq(|buf|, i requires 0 <= i < |buf| => ClipRgb(buf[i]))
  }

  /** Converting a pixel to float and back gives the pixel itself. */
  lemma ClipRgbOfByte(p: Rgb<Byte>)
    ensures ClipRgb(AsReal(p)) == p
  {
    ClipToByteOfByte(p.r);
    ClipToByteOfByte(p.g);
    ClipToByteOfByte(p.b);
  }

  // ------------------------------------------------- collaborating filters

  /** The PIL, OpenCV and rawpy operations the processor calls, as given
      functions: ImageEnhance.Brightness by 2 ** exposure, ImageEnhance
      Contrast and Color by a factor, ImageFilter.UnsharpMask(radius,
      percent, threshold), ImageFilter.GaussianBlur(radius), cv2's
      RGB-to-gray conversion of one pixel, and the two decoders (the RAW
      one None when the file cannot be read); rawSupport says whether
      rawpy imports. */
  datatype Filters = Filters(
    exposure: (real, Picture) -> Picture,
    contrast: (real, Picture) -> Picture,
    color: (real, Picture) -> Picture,
    unsharp: (real, int, int, Picture) -> Picture,
    gaussianBlur: (real, Picture) -> Picture,
    gray: Rgb<Byte> -> Byte,
    rawSupport: bool,
    decodeRaw: string -> Option<RawPicture>,
    decodeStandard: string -> StandardFile)

  /** What PIL makes of a non-RAW file: Image.open fails on it, or it
      identifies the file, whose pixels then decode to an RGB picture or
      fail to decode (a truncated JPEG, say) when they are first read. */
  datatype StandardFile = Unidentified | Identified(pixels: Option<Picture>)

  /** The processor's original_image once something has been assigned to
      it: a decoded picture, or an image PIL identified but cannot decode,
      on which every later copy() raises. */
  datatype Original = Decoded(picture: Picture) | Undecodable

  // ---------------------------------------------------------- parameters

  /** One group of adjustment values keyed by name; preset files may add
      keys of their own. */
  type Params = map<string, real>

  const DefaultBasic: Params := map["exposure" := 0.0, "highlights" := 0.0, "shadows" := 0.0,
                                    "whites" := 0.0, "blacks" := 0.0, "contrast" := 0.0,
                                    "clarity" := 0.0, "vibrance" := 0.0, "saturation" := 0.0]
  const DefaultColor: Params := map["temperature" := 0.0, "tint" := 0.0, "hue" := 0.0]
  const DefaultDetail: Params := map["sharpening" := 0.0, "noise_reduction" := 0.0,
                                     "color_noise_reduction" := 0.0]
  const DefaultAstro: Params := map["star_enhancement" := 0.0, "background_smoothing" := 0.0,
                                    "light_pollution_removal" := 0.0, "nebula_enhancement" := 0.0]
  const DefaultHslColor: Params := map["hue" := 0.0, "saturation" := 0.0, "luminance" := 0.0]
  const DefaultHsl: map<string, Params> :=
    map["red" := DefaultHslColor, "orange" := DefaultHslColor, "yellow" := DefaultHslColor,
        "green" := DefaultHslColor, "aqua" := DefaultHslColor, "blue" := DefaultHslColor,
        "purple" := DefaultHslColor, "magenta" := DefaultHslColor]
  const DefaultToneCurve: Params := map["highlights" := 255.0, "lights" := 191.0, "darks" := 64.0,
                                        "shadows" := 0.0]

  /** The keys the adjustment steps look up. */
  predicate HasBasicKeys(basic: Params) {
    "exposure" in basic && "contrast" in basic && "saturation" in basic && "clarity" in basic
  }

  predicate HasColorKeys(color: Params) {
    "temperature" in color && "tint" in color
  }

  predicate HasAstroKeys(astro: Params) {
    && "star_enhancement" in astro && "background_smoothing" in astro
    && "light_pollution_removal" in astro && "nebula_enhancement" in astro
  }

  /** Every value of the group is 0. */
  predicate AllZero(m: Params) {
    forall k :: k in m ==> m[k] == 0.0
  }

  /** dict.update: the keys of u take u's values, every other key of m keeps
      its own, and no key is lost. */
  function Merge<V>(m: map<string, V>, u: map<string, V>): (r: map<string, V>)
    ensures r.Keys == m.Keys + u.Keys
    ensures forall k :: k in u ==> r[k] == u[k]
    ensures forall k :: k in m && k !in u ==> r[k] == m[k]
  {
    m + u
  }

  /** The HSL merge is shallow: a colour named in the preset is replaced as a
      whole, so a parameter its preset entry leaves out is gone. */
  lemma ShallowHslMergeDropsParams(hsl: map<string, Params>, u: map<string, Params>, colour: string,
                                   param: string)
    requires colour in u && param !in u[colour]
    ensures colour in Merge(hsl, u) && param !in Merge(hsl, u)[colour]
  {
  }

  /** The processor's six adjustment groups. A preset file has the same
      sections; a section missing from the file is empty. */
  datatype Adjustments = Adjustments(basic: Params, color: Params, detail: Params, astro: Params,
                                     hsl: map<string, Params>, toneCurve: Params)

  const Defaults: Adjustments :=
    Adjustments(DefaultBasic, DefaultColor, DefaultDetail, DefaultAstro, DefaultHsl, DefaultToneCurve)

  /** The keys the adjustment steps look up are all present. */
  predicate Usable(a: Adjustments) {
    HasBasicKeys(a.basic) && HasColorKeys(a.color) && HasAstroKeys(a.astro)
  }

  /** load_preset's merge: every group updated with its preset section.
      No key is lost, so the groups stay usable. */
  function Updated(a: Adjustments, preset: Adjustments): (r: Adjustments)
    ensures r.basic.Keys == a.basic.Keys + preset.basic.Keys
    ensures r.color.Keys == a.color.Keys + preset.color.Keys
    ensures r.detail.Keys == a.detail.Keys + preset.detail.Keys
    ensures r.astro.Keys == a.astro.Keys + preset.astro.Keys
    ensures r.hsl.Keys == a.hsl.Keys + preset.hsl.Keys
    ensures r.toneCurve.Keys == a.toneCurve.Keys + preset.toneCurve.Keys
    ensures Usable(a) ==> Usable(r)
  {
    Adjustments(Merge(a.basic, preset.basic), Merge(a.color, preset.color),
                Merge(a.detail, preset.detail), Merge(a.astro, preset.astro),
                Merge(a.hsl, preset.hsl), Merge(a.toneCurve, preset.toneCurve))
  }

  /** Loading the same preset twice is loading it once. */
  lemma {:induction false} UpdateIsIdempotent(a: Adjustments, preset: Adjustments)
    ensures Updated(Updated(a, preset), preset) == Updated(a, preset)
  {
    var once := Updated(a, preset);
    MergeIsIdempotent(a.basic, preset.basic);
    MergeIsIdempotent(a.color, preset.color);
    MergeIsIdempotent(a.detail, preset.detail);
    MergeIsIdempotent(a.astro, preset.astro);
    MergeIsIdempotent(a.hsl, preset.hsl);
    MergeIsIdempotent(a.toneCurve, preset.toneCurve);
  }

  lemma MergeIsIdempotent<V>(m: map<string, V>, u: map<string, V>)
    ensures Merge(Merge(m, u), u) == Merge(m, u)
  {
    var once := Merge(m, u);
    assert forall k :: k in Merge(once, u) ==> Merge(once, u)[k] == once[k];
  }

  /** reset_adjustments' outcome: the basic, colour, detail, astro and HSL
      groups keep their keys with every value 0, and the tone curve is the
      default one. */
  ghost predicate IsResetOf(after: Adjustments, before: Adjustments) {
    && after.basic.Keys == before.basic.Keys && AllZero(after.basic)
    && after.color.Keys == before.color.Keys && AllZero(after.color)
    && after.detail.Keys == before.detail.Keys && AllZero(after.detail)
    && after.astro.Keys == before.astro.Keys && AllZero(after.astro)
    && after.hsl.Keys == before.hsl.Keys
    && (forall colour :: colour in after.hsl ==>
          after.hsl[colour].Keys == before.hsl[colour].Keys && AllZero(after.hsl[colour]))
    && after.toneCurve == DefaultToneCurve
  }

  // -------------------------------------------------------- colour gains

  /** One channel of a float pixel multiplied in place by k. */
  function Scale(p: Rgb<real>, c: Channel, k: real): (q: Rgb<real>)
    ensures Sample(q, c) == Sample(p, c) * k
    ensures forall d :: d != c ==> Sample(q, d) == Sample(p, d)
  {
    match c
    case Red => p.(r := p.r * k)
    case Green => p.(g := p.g * k)
    case Blue => p.(b := p.b * k)
  }

  /** The temperature step: t = temperature / 1000; warm (t > 0) scales red
      by 1 + 0.3t and blue by 1 - 0.2t, cool scales red by 1 + 0.2t and blue
      by 1 - 0.3t; 0 skips the step. */
  function TemperatureScaled(temperature: real, p: Rgb<real>): Rgb<real> {
    if temperature == 0.0 then p
    else
      var t := temperature / 1000.0;
      if t > 0.0 then Scale(Scale(p, Red, 1.0 + t * 0.3), Blue, 1.0 - t * 0.2)
      else Scale(Scale(p, Red, 1.0 + t * 0.2), Blue, 1.0 - t * 0.3)
  }

  /** The tint step: f = tint / 100; magenta (f > 0) scales red and blue by
      1 + 0.1f, green (f < 0) scales green by 1 - 0.2f; 0 skips the step. */
  function TintScaled(tint: real, p: Rgb<real>): Rgb<real> {
    if tint == 0.0 then p
    else
      var f := tint / 100.0;
      if f > 0.0 then Scale(Scale(p, Red, 1.0 + f * 0.1), Blue, 1.0 + f * 0.1)
      else Scale(p, Green, 1.0 - f * 0.2)
  }

  /** One pixel through the temperature and tint steps, clipped back to
      8 bits. */
  function ColorPixel(temperature: real, tint: real, p: Rgb<Byte>): Rgb<Byte> {
    ClipRgb(TintScaled(tint, TemperatureScaled(temperature, AsReal(p))))
  }

  /** apply_color_adjustments: the image itself when every colour value
      (hue included) is 0; otherwise temperature, then tint, on the float
      copy, clipped back to 8 bits. */
  function ColorAdjusted(color: Params, img: Picture): Picture
    requires HasColorKeys(color)
  {
    if AllZero(color) then img
    else
      var px := img.pixels;
      Raster(img.width, img.height,
             seq(|px|, i requires 0 <= i < |px| => ColorPixel(color["temperature"], color["tint"], px[i])))
  }

  /** With temperature and tint both 0 the colour step returns its input,
      whatever the hue or any other colour value is. */
  lemma NeutralColorKeepsPicture(color: Params, img: Picture)
    requires HasColorKeys(color)
    requires color["temperature"] == 0.0 && color["tint"] == 0.0
    ensures ColorAdjusted(color, img) == img
  {
    if !AllZero(color) {
      var out := ColorAdjusted(color, img);
      forall i | 0 <= i < |img.pixels|
        ensures out.pixels[i] == img.pixels[i]
      {
        ClipRgbOfByte(img.pixels[i]);
      }
    }
  }

  /** Green is touched only by a negative tint: temperature and a positive
      tint leave it as it was. */
  lemma ColorKeepsGreenUnlessGreenTint(color: Params, img: Picture, i: nat)
    requires HasColorKeys(color) && color["tint"] >= 0.0
    requires i < |img.pixels|
    ensures |ColorAdjusted(color, img).pixels| == |img.pixels|
    ensures ColorAdjusted(color, img).pixels[i].g == img.pixels[i].g
  {
    ClipToByteOfByte(img.pixels[i].g);
  }

  /** A negative tint leaves red and blue alone when the temperature is 0,
      and never lowers green. */
  lemma GreenTintKeepsRedAndBlue(color: Params, img: Picture, i: nat)
    requires HasColorKeys(color) && color["temperature"] == 0.0 && color["tint"] < 0.0
    requires i < |img.pixels|
    ensures |ColorAdjusted(color, img).pixels| == |img.pixels|
    ensures ColorAdjusted(color, img).pixels[i].r == img.pixels[i].r
    ensures ColorAdjusted(color, img).pixels[i].b == img.pixels[i].b
    ensures ColorAdjusted(color, img).pixels[i].g >= img.pixels[i].g
  {
    var p := img.pixels[i];
    ClipToByteOfByte(p.r);
    ClipToByteOfByte(p.b);
    AtLeastWhenGainAtLeastOne(p.g, 1.0 - color["tint"] / 100.0 * 0.2);
    assert !AllZero(color);
  }

  /** Warming a pixel (tint 0, temperature in (0, 2000]) raises red,
      lowers blue and keeps green. */
  lemma WarmPixel(temperature: real, p: Rgb<Byte>)
    requires 0.0 < temperature <= 2000.0
    ensures var q := ColorPixel(temperature, 0.0, p);
      q.r >= p.r && q.b <= p.b && q.g == p.g
  {
    var t := temperature / 1000.0;
    var kr := 1.0 + t * 0.3;
    var kb := 1.0 - t * 0.2;
    TemperatureGains(temperature, p, kr, kb);
    GainsMoveChannels(p, kr, kb, ColorPixel(temperature, 0.0, p));
  }

  /** Cooling a pixel (tint 0, temperature in [-2000, 0)) lowers red,
      raises blue and keeps green. */
  lemma CoolPixel(temperature: real, p: Rgb<Byte>)
    requires -2000.0 <= temperature < 0.0
    ensures var q := ColorPixel(temperature, 0.0, p);
      q.r <= p.r && q.b >= p.b && q.g == p.g
  {
    var t := temperature / 1000.0;
    var kr := 1.0 + t * 0.2;
    var kb := 1.0 - t * 0.3;
    TemperatureGains(temperature, p, kr, kb);
    GainsMoveChannels(p, kr, kb, ColorPixel(temperature, 0.0, p));
  }

  /** Within the slider's range, warming raises red and lowers blue, and
      cooling does the opposite; green stays. */
  lemma TemperatureDirections(color: Params, img: Picture, i: nat)
    requires HasColorKeys(color) && color["tint"] == 0.0
    requires -2000.0 <= color["temperature"] <= 2000.0
    requires i < |img.pixels|
    ensures |ColorAdjusted(color, img).pixels| == |img.pixels|
    ensures var q := ColorAdjusted(color, img).pixels[i];
      var p := img.pixels[i];
      && q.g == p.g
      && (color["temperature"] > 0.0 ==> q.r >= p.r && q.b <= p.b)
      && (color["temperature"] < 0.0 ==> q.r <= p.r && q.b >= p.b)
  {
    var temperature := color["temperature"];
    if temperature > 0.0 {
      WarmPixel(temperature, img.pixels[i]);
      assert !AllZero(color);
    } else if temperature < 0.0 {
      CoolPixel(temperature, img.pixels[i]);
      assert !AllZero(color);
    } else {
      NeutralColorKeepsPicture(color, img);
    }
  }

  /** A positive tint raises red and blue and leaves green alone when the
      temperature is 0. */
  lemma MagentaTintRaisesRedAndBlue(color: Params, img: Picture, i: nat)
    requires HasColorKeys(color) && color["temperature"] == 0.0 && color["tint"] > 0.0
    requires i < |img.pixels|
    ensures |ColorAdjusted(color, img).pixels| == |img.pixels|
    ensures var q := ColorAdjusted(color, img).pixels[i];
      var p := img.pixels[i];
      q.r >= p.r && q.b >= p.b && q.g == p.g
  {
    var p := img.pixels[i];
    ClipToByteOfByte(p.g);
    var k := 1.0 + color["tint"] / 100.0 * 0.1;
    AtLeastWhenGainAtLeastOne(p.r, k);
    AtLeastWhenGainAtLeastOne(p.b, k);
    assert !AllZero(color);
  }

  /** A non-zero temperature scales red by kr and blue by kb, the gains the
      temperature step picks, and keeps green. */
  lemma TemperatureGains(temperature: real, p: Rgb<Byte>, kr: real, kb: real)
    requires temperature != 0.0
    requires var t := temperature / 1000.0;
      if t > 0.0 then kr == 1.0 + t * 0.3 && kb == 1.0 - t * 0.2
      else kr == 1.0 + t * 0.2 && kb == 1.0 - t * 0.3
    ensures ColorPixel(temperature, 0.0, p).r == ClipToByte(p.r as real * kr)
    ensures ColorPixel(temperature, 0.0, p).g == ClipToByte(p.g as real)
    ensures ColorPixel(temperature, 0.0, p).b == ClipToByte(p.b as real * kb)
  {
    var x := TemperatureScaled(temperature, AsReal(p));
    assert x.r == p.r as real * kr && x.g == p.g as real && x.b == p.b as real * kb;
  }

  /** A pixel whose red and blue were scaled by kr and kb and clipped:
      each of the two moves the way its gain points, and green is kept. */
  lemma GainsMoveChannels(p: Rgb<Byte>, kr: real, kb: real, q: Rgb<Byte>)
    requires 0.0 <= kr && 0.0 <= kb
    requires q.r == ClipToByte(p.r as real * kr) && q.b == ClipToByte(p.b as real * kb)
    requires q.g == ClipToByte(p.g as real)
    ensures kr >= 1.0 ==> q.r >= p.r
    ensures kr <= 1.0 ==> q.r <= p.r
    ensures kb >= 1.0 ==> q.b >= p.b
    ensures kb <= 1.0 ==> q.b <= p.b
    ensures q.g == p.g
  {
    GainsMoveSamples(p.r, kr, p.b, kb);
    ClipToByteOfByte(p.g);
  }

  /** GainMovesSample for two samples at once. */
  lemma GainsMoveSamples(x: Byte, kx: real, y: Byte, ky: real)
    requires 0.0 <= kx && 0.0 <= ky
    ensures kx >= 1.0 ==> ClipToByte(x as real * kx) >= x
    ensures kx <= 1.0 ==> ClipToByte(x as real * kx) <= x
    ensures ky >= 1.0 ==> ClipToByte(y as real * ky) >= y
    ensures ky <= 1.0 ==> ClipToByte(y as real * ky) <= y
  {
    GainMovesSample(x, kx);
    GainMovesSample(y, ky);
  }

  /** A gain of at least 1 never darkens a sample, one in [0, 1] never
      brightens it. */
  lemma GainMovesSample(x: Byte, k: real)
    requires 0.0 <= k
    ensures k >= 1.0 ==> ClipToByte(x as real * k) >= x
    ensures k <= 1.0 ==> ClipToByte(x as real * k) <= x
  {
    if k >= 1.0 { AtLeastWhenGainAtLeastOne(x, k); }
    if k <= 1.0 { AtMostWhenGainAtMostOne(x, k); }
  }

  lemma ScaledDown(x: real, k: real, v: real)
    requires 0.0 <= x && 0.0 <= k <= 1.0 && v == x * k
    ensures v <= x
  {
    MulNonNegative(x, 1.0 - k);
  }

  lemma ScaledUp(x: real, k: real, v: real)
    requires 0.0 <= x && 1.0 <= k && v == x * k
    ensures x <= v
  {
    MulNonNegative(x, k - 1.0);
  }

  lemma MulNonNegative(a: real, b: real)
    requires 0.0 <= a && 0.0 <= b
    ensures 0.0 <= a * b
  {
  }

  lemma ClipAtMost(v: real, x: Byte)
    requires v <= x as real
    ensures ClipToByte(v) <= x
  {
    ClipToByteMonotone(v, x as real);
    ClipToByteOfByte(x);
  }

  lemma ClipAtLeast(v: real, x: Byte)
    requires x as real <= v
    ensures x <= ClipToByte(v)
  {
    ClipToByteMonotone(x as real, v);
    ClipToByteOfByte(x);
  }

  /** A gain of at least 1 never darkens a sample. */
  lemma AtLeastWhenGainAtLeastOne(x: Byte, k: real)
    requires k >= 1.0
    ensures ClipToByte(x as real * k) >= x
  {
    var v := x as real * k;
    ScaledUp(x as real, k, v);
    ClipAtLeast(v, x);
  }

  /** A gain in [0, 1] never brightens a sample. */
  lemma AtMostWhenGainAtMostOne(x: Byte, k: real)
    requires 0.0 <= k <= 1.0
    ensures ClipToByte(x as real * k) <= x
  {
    var v := x as real * k;
    ScaledDown(x as real, k, v);
    ClipAtMost(v, x);
  }

  // ---------------------------------------------------- light pollution

  /** One sample of the light-pollution step: below the limit it is scaled
      by k, otherwise kept. */
  function DimSample(x: real, limit: real, k: real): real {
    if x < limit then x * k else x
  }

  function Dimmed(p: Rgb<real>, limit: real, k: real): Rgb<real> {
    Rgb(DimSample(p.r, limit, k), DimSample(p.g, limit, k), DimSample(p.b, limit, k))
  }

  /** _remove_light_pollution: with f = removal / 100 > 0, every sample
      strictly below 128(1 - f) is multiplied by 1 - 0.5f, then the copy is
      clipped back to 8 bits; otherwise the image itself. */
  function LightPollutionRemoved(removal: real, img: Picture): Picture {
    var f := removal / 100.0;
    if f > 0.0 then
      var px := img.pixels;
      Raster(img.width, img.height, seq(|px|, i requires 0 <= i < |px| => DimmedPixel(f, px[i])))
    else img
  }

  /** One 8-bit pixel through the step with factor f, clipped back. */
  function DimmedPixel(f: real, p: Rgb<Byte>): Rgb<Byte> {
    ClipRgb(Dimmed(AsReal(p), 128.0 * (1.0 - f), 1.0 - f * 0.5))
  }

  /** Each channel of a dimmed pixel is its own sample dimmed. */
  lemma DimmedPixelSample(f: real, p: Rgb<Byte>, c: Channel)
    ensures Sample(DimmedPixel(f, p), c)
         == ClipToByte(DimSample(Sample(p, c) as real, 128.0 * (1.0 - f), 1.0 - f * 0.5))
  {
  }

  /** One 8-bit sample through the step. */
  lemma DimmedByte(x: Byte, f: real)
    requires f > 0.0
    ensures var y := ClipToByte(DimSample(x as real, 128.0 * (1.0 - f), 1.0 - f * 0.5));
      && y <= x
      && (y < x <==> 0 < x && (x as real) < 128.0 * (1.0 - f))
      && ((x as real) < 128.0 * (1.0 - f) ==> y == (x as real * (1.0 - f * 0.5)).Floor)
  {
    var limit := 128.0 * (1.0 - f);
    var k := 1.0 - f * 0.5;
    ClipToByteOfByte(x);
    if (x as real) < limit {
      assert 0.0 <= limit && f < 1.0;
      assert 0.5 < k < 1.0;
      var v := x as real * k;
      assert 0.0 <= v <= x as real by {
        assert x as real * k <= x as real * 1.0;
      }
      if 0 < x {
        assert v < x as real by {
          assert x as real * k < x as real * 1.0;
        }
      }
    }
  }

  /** Sample x became y under removal: y is never brighter, it differs from
      x exactly when f = removal / 100 > 0 and x is non-zero and strictly
      below 128(1 - f), and then it is the floor of x(1 - f/2). */
  predicate DarkSampleDimmed(removal: real, x: Byte, y: Byte) {
    var f := removal / 100.0;
    && y <= x
    && (y < x <==> f > 0.0 && 0 < x && (x as real) < 128.0 * (1.0 - f))
    && (f > 0.0 && (x as real) < 128.0 * (1.0 - f) ==> y == (x as real * (1.0 - f * 0.5)).Floor)
  }

  /** The step never brightens a sample, and it changes exactly the
      non-zero samples strictly below 128(1 - f), each to the floor of its
      scaled value; removal 0 or at least 100 leaves every sample alone. */
  lemma LightPollutionChangesOnlyDarkSamples(removal: real, img: Picture, i: nat, c: Channel)
    requires i < |img.pixels|
    ensures |LightPollutionRemoved(removal, img).pixels| == |img.pixels|
    ensures DarkSampleDimmed(removal, Sample(img.pixels[i], c), Sample(LightPollutionRemoved(removal, img).pixels[i], c))
  {
    var f := removal / 100.0;
    LightPollutionPixel(removal, img, i);
    DimmedPixelSample(f, img.pixels[i], c);
    SampleThroughStep(removal, Sample(img.pixels[i], c), Sample(LightPollutionRemoved(removal, img).pixels[i], c));
  }

  /** The step's effect on one sample x that became y. */
  lemma SampleThroughStep(removal: real, x: Byte, y: Byte)
    requires var f := removal / 100.0;
      y == if f > 0.0 then ClipToByte(DimSample(x as real, 128.0 * (1.0 - f), 1.0 - f * 0.5)) else x
    ensures DarkSampleDimmed(removal, x, y)
  {
    var f := removal / 100.0;
    if f > 0.0 {
      DimmedByte(x, f);
    }
  }

  /** Pixel i of the result is pixel i dimmed with f when f > 0, and
      pixel i itself otherwise. */
  lemma LightPollutionPixel(removal: real, img: Picture, i: nat)
    requires i < |img.pixels|
    ensures |LightPollutionRemoved(removal, img).pixels| == |img.pixels|
    ensures var f := removal / 100.0;
      LightPollutionRemoved(removal, img).pixels[i]
      == if f > 0.0 then DimmedPixel(f, img.pixels[i]) else img.pixels[i]
  {
  }

  // ------------------------------------------------------- 16-bit to 8-bit

  /** (rgb_array / 256).astype(np.uint8) on one sample: the high byte. */
  function To8Bit(v: Word): (b: Byte)
    ensures b * 256 <= v < b * 256 + 256
  {
    v / 256
  }

  /** The conversion keeps the order of samples. */
  lemma To8BitMonotone(u: Word, v: Word)
    requires u <= v
    ensures To8Bit(u) <= To8Bit(v)
  {
  }

  /** A sample built from a high and a low byte converts to its high byte. */
  lemma To8BitKeepsHighByte(hi: Byte, lo: Byte)
    ensures To8Bit(hi * 256 + lo) == hi
  {
  }

  /** The 8-bit image of a 16-bit one, sample by sample. */
  function To8BitPicture(raw: RawPicture): (img: Picture)
    ensures img.width == raw.width && img.height == raw.height && |img.pixels| == |raw.pixels|
    ensures forall i, c :: 0 <= i < |raw.pixels| ==> Sample(img.pixels[i], c) == To8Bit(Sample(raw.pixels[i], c))
  {
    var px := raw.pixels;
    Raster(raw.width, raw.height,
           seq(|px|, i requires 0 <= i < |px| => Rgb(To8Bit(px[i].r), To8Bit(px[i].g), To8Bit(px[i].b))))
  }

  // ----------------------------------------------------------- histograms

  /** np.histogram(values, bins=256, range=(0, 256)): bin k counts the
      samples equal to k. */
  function Histogram(values: seq<Byte>): (h: seq<nat>)
    ensures |h| == 256
    ensures forall k: Byte :: h[k] == Count(values, k)
  {
    seq(256, (k: int) requires 0 <= k < 256 => Count(values, k as Byte))
  }

  /** The bins of a histogram add up to the number of samples. */
  lemma {:induction false} HistogramTotal(values: seq<Byte>)
    ensures Sum(Histogram(values)) == |values|
  {
    if values == [] {
      SumOfZeros(Histogram(values));
    } else {
      var n := |values| - 1;
      var x := values[n];
      HistogramTotal(values[..n]);
      assert values == values[..n] + [x];
      forall k | 0 <= k < 256
        ensures Histogram(values)[k] == Histogram(values[..n])[k] + (if k == x then 1 else 0)
      {
        CountAppend(values[..n], [x], k);
      }
      SumBumped(Histogram(values[..n]), Histogram(values), x);
    }
  }

  lemma {:induction false} SumOfZeros(s: seq<int>)
    requires forall k :: 0 <= k < |s| ==> s[k] == 0
    ensures Sum(s) == 0
  {
    if s != [] {
      SumOfZeros(s[..|s| - 1]);
    }
  }

  /** Adding one to one entry adds one to the sum. */
  lemma {:induction false} SumBumped(a: seq<int>, b: seq<int>, x: nat)
    requires |a| == |b| && x < |a|
    requires b[x] == a[x] + 1
    requires forall k :: 0 <= k < |a| && k != x ==> a[k] == b[k]
    ensures Sum(b) == Sum(a) + 1
  {
    var n := |a| - 1;
    if x == n {
      assert a[..n] == b[..n];
    } else {
      SumBumped(a[..n], b[..n], x);
    }
  }

  /** get_histogram_data: nothing without a processed image, otherwise the
      red, green and blue histograms and that of cv2's gray conversion. */
  function Histograms(gray: Rgb<Byte> -> Byte, processed: Option<Picture>): (h: map<string, seq<nat>>)
    ensures processed.None? ==> h == map[]
    ensures processed.Some? ==>
      && h.Keys == {"red", "green", "blue", "luminance"}
      && h["red"] == Histogram(ChannelSamples(processed.value, Red))
      && h["green"] == Histogram(ChannelSamples(processed.value, Green))
      && h["blue"] == Histogram(ChannelSamples(processed.value, Blue))
  {
    match processed
    case None => map[]
    case Some(img) =>
      var px := img.pixels;
      map["red" := Histogram(ChannelSamples(img, Red)),
          "green" := Histogram(ChannelSamples(img, Green)),
          "blue" := Histogram(ChannelSamples(img, Blue)),
          "luminance" := Histogram(seq(|px|, i requires 0 <= i < |px| => gray(px[i])))]
  }

  /** Each of the four histograms has 256 bins adding up to width x height. */
  lemma HistogramsCountEveryPixel(gray: Rgb<Byte> -> Byte, img: Picture, key: string)
    requires key in {"red", "green", "blue", "luminance"}
    ensures var h := Histograms(gray, Some(img));
      && key in h && |h[key]| == 256 && Sum(h[key]) == |img.pixels|
      && (Sized(img) ==> Sum(h[key]) == img.width * img.height)
  {
    var px := img.pixels;
    if key == "red" {
      HistogramTotal(ChannelSamples(img, Red));
    } else if key == "green" {
      HistogramTotal(ChannelSamples(img, Green));
    } else if key == "blue" {
      HistogramTotal(ChannelSamples(img, Blue));
    } else {
      HistogramTotal(seq(|px|, i requires 0 <= i < |px| => gray(px[i])));
    }
  }

  // ------------------------------------------------------ load dispatch

  const RawExtensions: seq<string> := [".cr2", ".nef", ".arw", ".dng", ".raf", ".orf"]

  /** load_image's test for the RAW decoder. */
  predicate IsRawPath(path: string) {
    Lower(Suffix(path)) in RawExtensions
  }

  /** A file's extension selects the RAW decoder exactly when, lower-cased,
      it is one of the six RAW extensions. */
  lemma RawDispatchByExtension(dir: string, stem: string, ext: string)
    requires |stem| > 0 && '/' !in stem
    requires |ext| > 0 && '/' !in ext && '.' !in ext
    ensures IsRawPath(dir + "/" + stem + "." + ext) <==> Lower("." + ext) in RawExtensions
  {
    SuffixOfFile(dir, stem, ext);
  }

  /** A file whose whole name is ".cr2" has no suffix and goes to the
      standard decoder. */
  lemma DotFileIsNotRaw(dir: string)
    ensures !IsRawPath(dir + "/.cr2")
  {
    var path := dir + "/.cr2";
    var slash := |dir|;
    assert path[slash] == '/';
    assert forall j :: slash < j < |path| ==> path[j] != '/' by {
      assert path[slash + 1..] == ".cr2";
    }
    assert FileName(path) == ".cr2";
    assert ".cr2"[0] == '.' && forall j :: 0 < j < 4 ==> ".cr2"[j] != '.';
  }

  /** What load_image reads: the RAW decoder's image converted to 8 bits
      for a RAW extension (nothing without rawpy), the standard decoder's
      otherwise. */
  function LoadedPicture(filters: Filters, path: string): Option<Picture> {
    if IsRawPath(path) then
      if !filters.rawSupport then None
      else
        match filters.decodeRaw(path)
        case None => None
        case Some(raw) => Some(To8BitPicture(raw))
    else
      match filters.decodeStandard(path)
      case Unidentified => None
      case Identified(pixels) => pixels
  }

  /** _load_standard_image assigns Image.open's result to original_image
      before converting and copying it, so a file PIL identifies but
      cannot decode still replaces the original. */
  function OriginalAfterLoad(filters: Filters, path: string, before: Option<Original>): (r: Option<Original>)
    ensures LoadedPicture(filters, path).Some? ==> r == Some(Decoded(LoadedPicture(filters, path).value))
    ensures LoadedPicture(filters, path).None? ==>
      r == (if !IsRawPath(path) && filters.decodeStandard(path).Identified? then Some(Undecodable) else before)
  {
    if IsRawPath(path) then
      match LoadedPicture(filters, path)
      case None => before
      case Some(p) => Some(Decoded(p))
    else
      match filters.decodeStandard(path)
      case Unidentified => before
      case Identified(None) => Some(Undecodable)
      case Identified(Some(p)) => Some(Decoded(p))
  }

  // ---------------------------------------------------- processing order

  /** apply_basic_adjustments: exposure, contrast, saturation, then clarity
      (an unsharp mask of radius 2 and threshold 3 when positive, a blur
      of radius |clarity / 100| when negative), each skipped when 0. */
  function BasicAdjusted(filters: Filters, basic: Params, img: Picture): Picture
    requires HasBasicKeys(basic)
  {
    var a := if basic["exposure"] != 0.0 then filters.exposure(basic["exposure"], img) else img;
    var b := if basic["contrast"] != 0.0 then filters.contrast(1.0 + basic["contrast"] / 100.0, a) else a;
    var c := if basic["saturation"] != 0.0 then filters.color(1.0 + basic["saturation"] / 100.0, b) else b;
    var clarity := basic["clarity"] / 100.0;
    if basic["clarity"] == 0.0 then c
    else if clarity > 0.0 then filters.unsharp(2.0, Trunc(clarity * 150.0), 3, c)
    else filters.gaussianBlur(-clarity, c)
  }

  /** apply_astro_adjustments: star enhancement (unsharp mask of radius 1,
      percent 200f, threshold 10), background smoothing (blur of radius 2f),
      light-pollution removal, then nebula enhancement (contrast 1 + 0.5f
      and colour 1 + 0.3f), each only when its value is positive. */
  function AstroAdjusted(filters: Filters, astro: Params, img: Picture): Picture
    requires HasAstroKeys(astro)
  {
    var stars := astro["star_enhancement"] / 100.0;
    var a := if astro["star_enhancement"] > 0.0 then filters.unsharp(1.0, Trunc(stars * 200.0), 10, img)
             else img;
    var smoothing := astro["background_smoothing"] / 100.0;
    var b := if astro["background_smoothing"] > 0.0 then filters.gaussianBlur(smoothing * 2.0, a) else a;
    var c := if astro["light_pollution_removal"] > 0.0
             then LightPollutionRemoved(astro["light_pollution_removal"], b) else b;
    var nebula := astro["nebula_enhancement"] / 100.0;
    if astro["nebula_enhancement"] > 0.0
    then filters.color(1.0 + nebula * 0.3, filters.contrast(1.0 + nebula * 0.5, c))
    else c
  }

  /** process_image on an original: basic, then colour, then astro. */
  function Processed(filters: Filters, a: Adjustments, img: Picture): Picture
    requires Usable(a)
  {
    AstroAdjusted(filters, a.astro, ColorAdjusted(a.color, BasicAdjusted(filters, a.basic, img)))
  }

  /** With every basic, colour and astro value at 0, processing gives back
      the original. */
  lemma NeutralProcessingKeepsPicture(filters: Filters, a: Adjustments, img: Picture)
    requires Usable(a)
    requires AllZero(a.basic) && AllZero(a.color) && AllZero(a.astro)
    ensures Processed(filters, a, img) == img
  {
    assert BasicAdjusted(filters, a.basic, img) == img;
    assert ColorAdjusted(a.color, img) == img;
  }

  /** After reset_adjustments, processing gives back the original. */
  lemma ResetProcessingKeepsPicture(filters: Filters, before: Adjustments, after: Adjustments,
                                    img: Picture)
    requires Usable(before) && IsResetOf(after, before)
    ensures Usable(after) && Processed(filters, after, img) == img
  {
    NeutralProcessingKeepsPicture(filters, after, img);
  }

  /** Only the astro step follows the colour step: a light-pollution
      removal alone, with the other values 0, is the removal of the
      original. */
  lemma LightPollutionAloneIsRemoval(filters: Filters, a: Adjustments, img: Picture)
    requires Usable(a)
    requires AllZero(a.basic) && AllZero(a.color)
    requires a.astro["star_enhancement"] == 0.0 && a.astro["background_smoothing"] == 0.0
    requires a.astro["nebula_enhancement"] == 0.0
    ensures Processed(filters, a, img)
         == LightPollutionRemoved(a.astro["light_pollution_removal"], img)
  {
    assert BasicAdjusted(filters, a.basic, img) == img;
    assert ColorAdjusted(a.color, img) == img;
  }

  // ---------------------------------------------------- in-place helpers

  /** img_array[:, :, c] *= k on the float copy. */
  method ScaleChannel(buf: array<Rgb<real>>, c: Channel, k: real)
    modifies buf
    ensures forall i :: 0 <= i < buf.Length ==> buf[i] == Scale(old(buf[i]), c, k)
  {
    var i := 0;
    while i < buf.Length
      invariant 0 <= i <= buf.Length
      invariant forall j :: 0 <= j < i ==> buf[j] == Scale(old(buf[j]), c, k)
      invariant forall j :: i <= j < buf.Length ==> buf[j] == old(buf[j])
    {
      buf[i] := Scale(buf[i], c, k);
      i := i + 1;
    }
  }

  /** The float32 copy np.array(image, dtype=np.float32). */
  method FloatCopy(img: Picture) returns (buf: array<Rgb<real>>)
    ensures fresh(buf)
    ensures buf.Length == |img.pixels|
    ensures forall i :: 0 <= i < buf.Length ==> buf[i] == AsReal(img.pixels[i])
  {
    buf := new Rgb<real>[|img.pixels|](i requires 0 <= i < |img.pixels| => AsReal(img.pixels[i]));
  }

  // ----------------------------------------------------------- processor


  /** The temperature step of apply_color_adjustments on the float copy. */
  method ApplyTemperature(buf: array<Rgb<real>>, temperature: real)
    modifies buf
    ensures forall i :: 0 <= i < buf.Length ==> buf[i] == TemperatureScaled(temperature, old(buf[i]))
  {
    if temperature != 0.0 {
      var t := temperature / 1000.0;
      if t > 0.0 {
        ScaleChannel(buf, Red, 1.0 + t * 0.3);
        ScaleChannel(buf, Blue, 1.0 - t * 0.2);
      } else {
        ScaleChannel(buf, Red, 1.0 + t * 0.2);
        ScaleChannel(buf, Blue, 1.0 - t * 0.3);
      }
    }
  }

  /** The tint step of apply_color_adjustments on the float copy. */
  method ApplyTint(buf: array<Rgb<real>>, tint: real)
    modifies buf
    ensures forall i :: 0 <= i < buf.Length ==> buf[i] == TintScaled(tint, old(buf[i]))
  {
    if tint != 0.0 {
      var f := tint / 100.0;
      if f > 0.0 {
        ScaleChannel(buf, Red, 1.0 + f * 0.1);
        ScaleChannel(buf, Blue, 1.0 + f * 0.1);
      } else {
        ScaleChannel(buf, Green, 1.0 - f * 0.2);
      }
    }
  }

  /** Every value of a group set to 0, key by key. */
  method ZeroValues(m: Params) returns (r: Params)
    ensures r.Keys == m.Keys && AllZero(r)
  {
    r := m;
    var todo := m.Keys;
    while todo != {}
      invariant todo <= m.Keys && r.Keys == m.Keys
      invariant forall k :: k in m.Keys - todo ==> r[k] == 0.0
      decreases todo
    {
      var k :| k in todo;
      r := r[k := 0.0];
      todo := todo - {k};
    }
  }

  /** Every parameter of every HSL colour set to 0, colour by colour. */
  method ZeroHsl(hsl: map<string, Params>) returns (r: map<string, Params>)
    ensures r.Keys == hsl.Keys
    ensures forall colour :: colour in r ==> r[colour].Keys == hsl[colour].Keys && AllZero(r[colour])
  {
    r := hsl;
    var todo := hsl.Keys;
    while todo != {}
      invariant todo <= hsl.Keys && r.Keys == hsl.Keys
      invariant forall colour :: colour in todo ==> r[colour] == hsl[colour]
      invariant forall colour :: colour in hsl.Keys - todo ==>
        r[colour].Keys == hsl[colour].Keys && AllZero(r[colour])
      decreases todo
    {
      var colour :| colour in todo;
      var zeroed := ZeroValues(r[colour]);
      r := r[colour := zeroed];
      todo := todo - {colour};
    }
  }

  class CameraRawProcessor {
    const filters: Filters
    var originalImage: Option<Original>
    var processedImage: Option<Picture>
    var imagePath: string
    var adjustments: Adjustments

    /** The keys the adjustment steps look up are present; no operation
        removes a key. */
    ghost predicate Valid()
      reads this
    {
      Usable(adjustments)
    }

    constructor(filters: Filters)
      ensures Valid()
      ensures this.filters == filters && originalImage.None? && processedImage.None?
      ensures imagePath == "" && adjustments == Defaults
    {
      this.filters := filters;
      originalImage := None;
      processedImage := None;
      imagePath := "";
      adjustments := Defaults;
    }

    /** The decoding part of load_image: the RAW decoder for a RAW
        extension (failing without rawpy), the standard decoder otherwise. */
    method Decode(path: string) returns (decoded: Option<Picture>)
      ensures decoded == LoadedPicture(filters, path)
    {
      if IsRawPath(path) {
        if !filters.rawSupport {
          return None;
        }
        var raw := filters.decodeRaw(path);
        if raw.None? {
          return None;
        }
        decoded := Some(To8BitPicture(raw.value));
      } else {
        match filters.decodeStandard(path)
        case Unidentified => decoded := None;
        case Identified(pixels) => decoded := pixels;
      }
    }

    /** load_image: records the path, then decodes it by its extension;
        on success the original and the processed image are the decoded
        picture.  On failure the processed image stays, and so does the
        original, except that a non-RAW file PIL identifies but cannot
        decode becomes the (undecodable) original. */
    method LoadImage(path: string) returns (ok: bool)
      modifies this
      ensures imagePath == path
      ensures ok <==> LoadedPicture(filters, path).Some?
      ensures ok ==> processedImage == LoadedPicture(filters, path)
      ensures !ok ==> processedImage == old(processedImage)
      ensures originalImage == OriginalAfterLoad(filters, path, old(originalImage))
      ensures adjustments == old(adjustments)
    {
      imagePath := path;
      if !IsRawPath(path) {
        match filters.decodeStandard(path)
        case Unidentified =>
          return false;
        case Identified(pixels) =>
          if pixels.None? {
            originalImage := Some(Undecodable);
            return false;
          }
          originalImage := Some(Decoded(pixels.value));
          processedImage := pixels;
          return true;
      }
      var decoded := Decode(path);
      if decoded.None? {
        return false;
      }
      originalImage := Some(Decoded(decoded.value));
      processedImage := decoded;
      ok := true;
    }

    /** reset_adjustments. */
    method ResetAdjustments()
      requires Valid()
      modifies this
      ensures Valid() && IsResetOf(adjustments, old(adjustments))
      ensures originalImage == old(originalImage) && processedImage == old(processedImage)
      ensures imagePath == old(imagePath)
    {
      var basic := ZeroValues(adjustments.basic);
      var color := ZeroValues(adjustments.color);
      var detail := ZeroValues(adjustments.detail);
      var astro := ZeroValues(adjustments.astro);
      var hsl := ZeroHsl(adjustments.hsl);
      adjustments := Adjustments(basic, color, detail, astro, hsl, DefaultToneCurve);
    }

    /** load_preset: an unreadable file changes nothing; otherwise each
        group is updated with its preset section, key by key (HSL colour
        by colour). */
    method LoadPreset(preset: Option<Adjustments>) returns (ok: bool)
      requires Valid()
      modifies this
      ensures Valid()
      ensures ok <==> preset.Some?
      ensures adjustments == if ok then Updated(old(adjustments), preset.value) else old(adjustments)
      ensures originalImage == old(originalImage) && processedImage == old(processedImage)
      ensures imagePath == old(imagePath)
    {
      if preset.None? {
        return false;
      }
      adjustments := Updated(adjustments, preset.value);
      ok := true;
    }

    /** apply_color_adjustments on the current colour values. */
    method ApplyColorAdjustments(img: Picture) returns (out: Picture)
      requires Valid()
      ensures out == ColorAdjusted(adjustments.color, img)
    {
      var color := adjustments.color;
      if AllZero(color) {
        return img;
      }
      var buf := FloatCopy(img);
      ApplyTemperature(buf, color["temperature"]);
      ApplyTint(buf, color["tint"]);
      out := Raster(img.width, img.height, Quantized(buf[..]));
    }

    /** _remove_light_pollution on the current removal value. */
    method RemoveLightPollution(img: Picture) returns (out: Picture)
      requires Valid()
      ensures out == LightPollutionRemoved(adjustments.astro["light_pollution_removal"], img)
    {
      var f := adjustments.astro["light_pollution_removal"] / 100.0;
      if f <= 0.0 {
        return img;
      }
      var buf := FloatCopy(img);
      var limit := 128.0 * (1.0 - f);
      var k := 1.0 - f * 0.5;
      var i := 0;
      while i < buf.Length
        invariant 0 <= i <= buf.Length
        invariant forall j :: 0 <= j < i ==> buf[j] == Dimmed(AsReal(img.pixels[j]), limit, k)
        invariant forall j :: i <= j < buf.Length ==> buf[j] == AsReal(img.pixels[j])
      {
        buf[i] := Dimmed(buf[i], limit, k);
        i := i + 1;
      }
      out := Raster(img.width, img.height, Quantized(buf[..]));
    }

    /** apply_astro_adjustments on the current astro values. */
    method ApplyAstroAdjustments(img: Picture) returns (out: Picture)
      requires Valid()
      ensures out == AstroAdjusted(filters, adjustments.astro, img)
    {
      var astro := adjustments.astro;
      out := img;
      if astro["star_enhancement"] > 0.0 {
        out := filters.unsharp(1.0, Trunc(astro["star_enhancement"] / 100.0 * 200.0), 10, out);
      }
      if astro["background_smoothing"] > 0.0 {
        out := filters.gaussianBlur(astro["background_smoothing"] / 100.0 * 2.0, out);
      }
      if astro["light_pollution_removal"] > 0.0 {
        out := RemoveLightPollution(out);
      }
      if astro["nebula_enhancement"] > 0.0 {
        var nebula := astro["nebula_enhancement"] / 100.0;
        out := filters.contrast(1.0 + nebula * 0.5, out);
        out := filters.color(1.0 + nebula * 0.3, out);
      }
    }

    /** process_image: None without an original, and None (copy() raising,
        the exception caught) for an undecodable one; otherwise the original
        through the basic, colour and astro steps, kept as the processed
        image. */
    method ProcessImage() returns (r: Option<Picture>)
      requires Valid()
      modifies this
      ensures Valid()
      ensures (old(originalImage).None? || old(originalImage).value.Undecodable?) ==>
        r.None? && processedImage == old(processedImage)
      ensures old(originalImage).Some? && old(originalImage).value.Decoded? ==>
        r == Some(Processed(filters, adjustments, old(originalImage).value.picture)) && processedImage == r
      ensures originalImage == old(originalImage) && imagePath == old(imagePath)
      ensures adjustments == old(adjustments)
    {
      if originalImage.None? || originalImage.value.Undecodable? {
        return None;
      }
      var result := BasicAdjusted(filters, adjustments.basic, originalImage.value.picture);
      result := ApplyColorAdjustments(result);
      result := ApplyAstroAdjustments(result);
      processedImage := Some(result);
      r := Some(result);
    }

    /** get_histogram_data on the processed image. */
    function HistogramData(): (h: map<string, seq<nat>>)
      reads this
      ensures processedImage.None? ==> h == map[]
      ensures processedImage.Some? ==> h.Keys == {"red", "green", "blue", "luminance"}
    {
      Histograms(filters.gray, processedImage)
    }
  }
}
