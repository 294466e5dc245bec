/**
 * The per-layer helpers: crop, rotation, filter dispatch, template resize,
 * watermark placement and colour decoding, the font tables, and the line
 * splitting and placement of `add_text`.
 */
module PhotoUtils {
  import opened Wrappers
  import opened Numeric
  import opened Text
  import opened Raster

  /** Why a layer operation raises. */
  datatype ImageError =
    | CropInverted                            // PIL: lower edge of the crop box above its upper edge
    | NotRgb                                  // the cartoon filter only accepts three-channel images
    | ZeroDivision                            // an aspect ratio or scale taken over a zero dimension
    | InvalidDimensions(width: int, height: int)  // the explicit check before a layer resize
    | NonPositiveSize                         // PIL refuses to resize to a non-positive size
    | BadHexColor                             // `int(..., 16)` on a slice that is not hexadecimal

  // ---------------------------------------------------------------- fonts

  /** The `match font_name` table of `add_text`; any other name gives `''`. */
  function TextFontPath(name: string): (path: string)
    ensures path != "" <==> name in {"arial", "tnr", "helvetica", "verdana", "avenir", "roboto"}
  {
    match name
    case "arial" => "/usr/share/fonts/arial.ttf"
    case "tnr" => "/usr/share/fonts/TimesNewRoman.ttf"
    case "helvetica" => "/usr/share/fonts/Helvetica.ttf"
    case "verdana" => "/usr/share/fonts/Verdana.ttf"
    case "avenir" => "/usr/share/fonts/AvenirNextCyr-Regular.ttf"
    case "roboto" => "/usr/share/fonts/Roboto-Medium.ttf"
    case _ => ""
  }

  /** The `match font_name` table of `apply_watermark`: the same entries, but none for 'roboto'. */
  function WatermarkFontPath(name: string): (path: string)
    ensures path == if name == "roboto" then "" else TextFontPath(name)
  {
    match name
    case "arial" => "/usr/share/fonts/arial.ttf"
    case "tnr" => "/usr/share/fonts/TimesNewRoman.ttf"
    case "helvetica" => "/usr/share/fonts/Helvetica.ttf"
    case "verdana" => "/usr/share/fonts/Verdana.ttf"
    case "avenir" => "/usr/share/fonts/AvenirNextCyr-Regular.ttf"
    case _ => ""
  }

  /**
   * `ImageFont.truetype(path, size)` with the `IOError` fallback to
   * `ImageFont.load_default()`. `installed` is the set of font files present
   * on the worker; the empty path is never a font file.
   */
  function ResolveFont(path: string, installed: set<string>): FontChoice
  {
    if path != "" && path in installed then TrueType(path) else DefaultFont
  }

  /** A name outside the table always ends on the default font, whatever is installed. */
  lemma UnknownFontFallsBack(name: string, installed: set<string>)
    requires name !in {"arial", "tnr", "helvetica", "verdana", "avenir", "roboto"}
    ensures ResolveFont(TextFontPath(name), installed) == DefaultFont
    ensures ResolveFont(WatermarkFontPath(name), installed) == DefaultFont
  {
  }

  // ---------------------------------------------------------------- crop

  datatype CropBox = CropBox(left: real, upper: real, right: real, lower: real)

  /** The box `(0, dh/100*h, w, h - db/100*h)` of `apply_crop`. */
  function CropBoxFor(img: Image, dh: real, db: real): CropBox
  {
    var h := img.height as real;
    CropBox(0.0, dh / 100.0 * h, img.width as real, h - db / 100.0 * h)
  }

  /**
   * `apply_crop`: PIL rounds the box to whole pixels and refuses a box whose
   * lower edge lies above its upper edge, which happens exactly when the two
   * percentages add up to more than 100 on a non-empty image.
   */
  function ApplyCrop(img: Image, dh: real, db: real): (r: Result<Image, ImageError>)
    ensures r.Ok? <==> img.height == 0 || dh + db <= 100.0
    ensures r.Err? ==> r.error == CropInverted
    ensures r.Ok? ==> r.value.width == img.width && r.value.mode == img.mode
  {
    var box := CropBoxFor(img, dh, db);
    CropInvertedWhen(img, dh, db);
    if box.lower < box.upper then Err(CropInverted)
    else
      RoundMonotone(box.upper, box.lower);
      var width := RoundHalfEven(box.right) - RoundHalfEven(box.left);
      var height := RoundHalfEven(box.lower) - RoundHalfEven(box.upper);
      RoundOfInt(img.width);
      RoundOfInt(0);
      Ok(Image(width, height, img.mode))
  }

  /** The box's lower edge lies above its upper edge exactly when the image has height and the cuts exceed 100%. */
  lemma CropInvertedWhen(img: Image, dh: real, db: real)
    ensures var box := CropBoxFor(img, dh, db);
            box.lower < box.upper <==> img.height > 0 && dh + db > 100.0
  {
    var h := img.height as real;
    var box := CropBoxFor(img, dh, db);
    assert box.lower == h - db / 100.0 * h && box.upper == dh / 100.0 * h;
    var k := (100.0 - dh - db) / 100.0;
    assert box.lower - box.upper == k * h;
    assert img.height > 0 <==> h > 0.0;
    assert k < 0.0 <==> dh + db > 100.0;
    if h == 0.0 {
      assert k * h == 0.0;
    } else if k < 0.0 {
      assert k * h < 0.0;
    } else {
      assert k * h >= 0.0;
    }
  }

  /** Cropping 0% from both edges keeps the image as it is. */
  lemma CropNothingKeepsImage(img: Image)
    ensures ApplyCrop(img, 0.0, 0.0) == Ok(img)
  {
    RoundOfInt(img.height);
    RoundOfInt(0);
  }

  /** The cropped height is the kept share of the height, to within one pixel. */
  lemma CropKeepsShare(img: Image, dh: real, db: real)
    requires ApplyCrop(img, dh, db).Ok?
    ensures var kept := (100.0 - dh - db) / 100.0 * img.height as real;
            kept - 1.0 <= ApplyCrop(img, dh, db).value.height as real <= kept + 1.0
  {
    var box := CropBoxFor(img, dh, db);
    assert box.lower - box.upper == (100.0 - dh - db) / 100.0 * img.height as real;
  }

  // ---------------------------------------------------------------- rotation

  /** PIL's rotation for angles that are not a multiple of 90 degrees: supplied from outside. */
  type RotationOracle = (Image, int) -> Image

  /**
   * `apply_rotation` (`img.rotate(rotation, expand=True)`): PIL reduces the
   * angle modulo 360, returns a copy for 0, and transposes for 90, 180 and
   * 270; every other angle goes through resampling, whose bounding box is
   * left to `arbitrary`.
   */
  function ApplyRotation(img: Image, rotation: int, arbitrary: RotationOracle): (r: Image)
    ensures rotation % 360 == 0 || rotation % 360 == 180 ==> r == img
    ensures rotation % 360 == 90 || rotation % 360 == 270 ==>
              r.width == img.height && r.height == img.width && r.mode == img.mode
  {
    var angle := rotation % 360;
    if angle == 0 || angle == 180 then img
    else if angle == 90 || angle == 270 then Image(img.height, img.width, img.mode)
    else arbitrary(img, angle)
  }

  // ---------------------------------------------------------------- filter

  /**
   * `apply_filter`: 'nb' converts to grayscale, 'cartoon' runs the OpenCV
   * pipeline (which raises on anything but a three-channel RGB image), and any
   * other name returns the image untouched.
   */
  function ApplyFilter(img: Image, filter: string): (r: Result<Image, ImageError>)
    ensures filter != "nb" && filter != "cartoon" ==> r == Ok(img)
    ensures filter == "nb" ==> r == Ok(Image(img.width, img.height, Grayscale))
    ensures filter == "cartoon" ==> (r.Ok? <==> img.mode == RGB)
    ensures r.Ok? ==> r.value.width == img.width && r.value.height == img.height
  {
    match filter
    case "nb" => Ok(Image(img.width, img.height, Grayscale))
    case "cartoon" => if img.mode == RGB then Ok(img) else Err(NotRgb)
    case _ => Ok(img)
  }

  // ---------------------------------------------------------------- template resize

  /**
   * `apply_resize_template`: the new width exactly, and the height that keeps
   * the aspect ratio, truncated.
   */
  function ApplyResizeTemplate(img: Image, newWidth: int): (r: Result<Image, ImageError>)
    ensures r == Err(ZeroDivision) <==> img.width == 0
    ensures r.Ok? <==> img.width > 0 && newWidth > 0 && newWidth * img.height >= img.width
    ensures r.Err? && img.width > 0 ==> r.error == NonPositiveSize
    ensures r.Ok? ==> r.value.width == newWidth && r.value.mode == img.mode
    ensures r.Ok? ==> r.value.height * img.width <= newWidth * img.height < (r.value.height + 1) * img.width
  {
    if img.width == 0 then Err(ZeroDivision)
    else
      var exact := newWidth as real / img.width as real * img.height as real;
      var newHeight := Trunc(exact);
      if newWidth <= 0 then Err(NonPositiveSize)
      else
        AspectBounds(newHeight, exact, newWidth, img.width, img.height);
        if newHeight <= 0 then Err(NonPositiveSize)
        else Ok(Image(newWidth, newHeight, img.mode))
  }

  /** From `n <= a/b*c < n + 1` over the reals to the same bounds scaled by `b`, over the integers. */
  lemma AspectBounds(n: int, exact: real, a: int, b: int, c: int)
    requires b > 0 && exact == a as real / b as real * c as real
    requires n as real <= exact < n as real + 1.0
    ensures n * b <= a * c < (n + 1) * b
  {
    var x := (a * c) as real;
    var d := b as real;
    assert exact == x / d;
    ScaleBounds(n as real, x, d);
    assert (n * b) as real == n as real * d;
    assert ((n + 1) * b) as real == (n as real + 1.0) * d;
  }

  lemma ScaleBounds(m: real, x: real, d: real)
    requires d > 0.0 && m <= x / d < m + 1.0
    ensures m * d <= x < (m + 1.0) * d
  {
    var q := x / d;
    assert q < m + 1.0;
    assert x == q * d;
    MulLess(m, q, d);
    MulLess(q, m + 1.0, d);
    assert q * d < (m + 1.0) * d;
    assert x < (m + 1.0) * d;
  }

  lemma MulLess(p: real, q: real, d: real)
    requires d > 0.0 && p <= q
    ensures p * d <= q * d
    ensures p < q ==> p * d < q * d
  {
    assert q * d - p * d == (q - p) * d;
  }

  // ---------------------------------------------------------------- colours

  /** The value of one hexadecimal digit, either case. */
  function HexDigit(c: char): (d: Option<nat>)
    ensures d.Some? ==> d.value < 16
  {
    if '0' <= c <= '9' then Some(c as nat - '0' as nat)
    else if 'a' <= c <= 'f' then Some(c as nat - 'a' as nat + 10)
    else if 'A' <= c <= 'F' then Some(c as nat - 'A' as nat + 10)
    else None
  }

  function Pow16(n: nat): (p: nat)
    ensures p >= 1
  {
    if n == 0 then 1 else 16 * Pow16(n - 1)
  }

  /** The value of a string of hexadecimal digits, most significant first. */
  function HexValue(s: string): (v: nat)
    requires forall i :: 0 <= i < |s| ==> HexDigit(s[i]).Some?
    ensures v < Pow16(|s|)
  {
    if s == [] then 0
    else HexValue(s[..|s| - 1]) * 16 + HexDigit(s[|s| - 1]).value
  }

  /** Python's whitespace (`str.isspace`), which `int()` strips from both ends of its argument. */
  predicate PySpace(c: char)
  {
    c == ' ' || '\t' <= c <= '\r' || '\U{1c}' <= c <= '\U{1f}' || c == '\U{85}' || c == '\U{a0}' || c == '\U{1680}'
    || '\U{2000}' <= c <= '\U{200a}' || c == '\U{2028}' || c == '\U{2029}' || c == '\U{202f}' || c == '\U{205f}'
    || c == '\U{3000}'
  }

  /** `s.strip()`. */
  function Strip(s: string): (t: string)
    ensures |t| <= |s|
    ensures t == [] || (!PySpace(t[0]) && !PySpace(t[|t| - 1]))
    decreases |s|
  {
    if s != [] && PySpace(s[0]) then Strip(s[1..])
    else if s != [] && PySpace(s[|s| - 1]) then Strip(s[..|s| - 1])
    else s
  }

  predicate AllHex(s: string)
  {
    forall i :: 0 <= i < |s| ==> HexDigit(s[i]).Some?
  }

  /**
   * `int(s, 16)` on a slice of at most two characters: surrounding whitespace
   * is stripped, one sign may lead, and at least one hexadecimal digit must
   * follow; anything else raises. Python's "0x" prefix and digit-separating
   * underscores need more characters than a slice holds.
   */
  function ParseHex(s: string): (v: Option<int>)
    requires |s| <= 2
    ensures v.Some? ==> -16 < v.value < 256
    ensures AllHex(s) ==> v == if s == [] then None else Some(HexValue(s))
  {
    var t := Strip(s);
    var signed := t != [] && (t[0] == '-' || t[0] == '+');
    var digits := if signed then t[1..] else t;
    if digits == [] || !AllHex(digits) then None
    else
      assert Pow16(|digits|) <= 256 by {
        assert Pow16(1) == 16;
        assert Pow16(2) == 256;
      }
      var magnitude: int := HexValue(digits);
      Some(if signed && t[0] == '-' then -magnitude else magnitude)
  }

  /** Python's `s[i:j]` for `0 <= i <= j`: out-of-range ends are clipped. */
  function PySlice(s: string, i: nat, j: nat): (r: string)
    requires i <= j
    ensures |r| <= j - i
  {
    var a := if i < |s| then i else |s|;
    var b := if j < |s| then j else |s|;
    s[a..b]
  }

  datatype Rgba = Rgba(r: int, g: int, b: int, a: int)

  /** `tuple(int(color[i:i+2], 16) for i in (0, 2, 4)) + (transparency,)`. */
  function DecodeColor(color: string, transparency: int): (c: Option<Rgba>)
    ensures c.Some? ==> -16 < c.value.r < 256 && -16 < c.value.g < 256 && -16 < c.value.b < 256
    ensures c.Some? ==> c.value.a == transparency
  {
    var r, g, b := ParseHex(PySlice(color, 0, 2)), ParseHex(PySlice(color, 2, 4)), ParseHex(PySlice(color, 4, 6));
    if r.Some? && g.Some? && b.Some? then Some(Rgba(r.value, g.value, b.value, transparency)) else None
  }

  /** The upper-case digit for a value below 16. */
  function HexChar(d: nat): char
    requires d < 16
  {
    if d < 10 then ('0' as int + d) as char else ('A' as int + d - 10) as char
  }

  /** The two-digit "RRGGBB" spelling of one channel. */
  function HexByte(n: nat): string
    requires n < 256
  {
    [HexChar(n / 16), HexChar(n % 16)]
  }

  lemma HexByteParses(n: nat)
    requires n < 256
    ensures ParseHex(HexByte(n)) == Some(n)
  {
    var s := HexByte(n);
    assert Strip(s) == s;
    assert HexDigit(s[0]) == Some(n / 16);
    assert HexDigit(s[1]) == Some(n % 16);
    assert s[..1][..0] == [];
    assert HexValue(s[..1]) == n / 16;
  }

  /** A six-character colour is decoded two characters per channel. */
  lemma DecodeThreeSlices(a: string, b: string, c: string, transparency: int)
    requires |a| == |b| == |c| == 2
    ensures DecodeColor(a + b + c, transparency)
              == if ParseHex(a).Some? && ParseHex(b).Some? && ParseHex(c).Some?
                 then Some(Rgba(ParseHex(a).value, ParseHex(b).value, ParseHex(c).value, transparency))
                 else None
  {
    var color := a + b + c;
    assert PySlice(color, 0, 2) == a;
    assert PySlice(color, 2, 4) == b;
    assert PySlice(color, 4, 6) == c;
  }

  /** Any "RRGGBB" colour decodes to its three channels and the given transparency. */
  lemma DecodeEncodedColor(r: nat, g: nat, b: nat, transparency: int)
    requires r < 256 && g < 256 && b < 256
    ensures DecodeColor(HexByte(r) + HexByte(g) + HexByte(b), transparency) == Some(Rgba(r, g, b, transparency))
  {
    DecodeThreeSlices(HexByte(r), HexByte(g), HexByte(b), transparency);
    HexByteParses(r);
    HexByteParses(g);
    HexByteParses(b);
  }

  /** `int()` reads a sign or a space next to a digit, and refuses a trailing sign. */
  lemma ShortSlicesParse()
    ensures ParseHex("-1") == Some(-1)
    ensures ParseHex(" f") == Some(15)
    ensures ParseHex("1-") == None
  {
    assert Strip("-1") == "-1";
    assert HexValue("1") == 1 by { assert "1"[..0] == []; }
    assert Strip(" f") == Strip("f") == "f";
    assert HexValue("f") == 15 by { assert "f"[..0] == []; }
    assert Strip("1-") == "1-";
  }

  /** So a colour with signs or spaces between its digits decodes, to a negative channel for a minus. */
  lemma SignedAndSpacedChannelsDecode(transparency: int)
    ensures DecodeColor("-1-1-1", transparency) == Some(Rgba(-1, -1, -1, transparency))
    ensures DecodeColor(" f f f", transparency) == Some(Rgba(15, 15, 15, transparency))
    ensures DecodeColor("1-1-1-", transparency).None?
  {
    assert "-1" + "-1" + "-1" == "-1-1-1";
    assert " f" + " f" + " f" == " f f f";
    assert "1-" + "1-" + "1-" == "1-1-1-";
    ShortSlicesParse();
    DecodeThreeSlices("-1", "-1", "-1", transparency);
    DecodeThreeSlices(" f", " f", " f", transparency);
    DecodeThreeSlices("1-", "1-", "1-", transparency);
  }

  /**
   * Whether PIL's `ImageColor.getrgb` reads `"#" + c`: the colour table has no
   * key starting with '#', so only its "#rgb", "#rgba", "#rrggbb" and
   * "#rrggbbaa" patterns can match, in either case; their `$` also lets one
   * final newline through. Anything else raises ValueError.
   */
  predicate HashColourParses(c: string)
  {
    var d := if c != [] && c[|c| - 1] == '\n' then c[..|c| - 1] else c;
    (|d| == 3 || |d| == 4 || |d| == 6 || |d| == 8) && AllHex(d)
  }

  /** A colour name without its '#' is not one of those patterns. */
  lemma NamedColourRefused()
    ensures !HashColourParses("black")
    ensures HashColourParses("000000") && HashColourParses("FFF")
  {
    assert HexDigit("black"[1]).None?;
  }

  /**
   * Whether PIL's JPEG writer accepts an image: it refuses an empty image, and
   * a mode other than 1, L, RGB, RGBX, CMYK and YCbCr (RGBA and P among them).
   */
  predicate JpegSavable(img: Image)
  {
    img.width > 0 && img.height > 0 &&
    (img.mode.RGB? || img.mode.Grayscale? || (img.mode.OtherMode? && img.mode.name in {"1", "RGBX", "CMYK", "YCbCr"}))
  }

  // ---------------------------------------------------------------- watermark

  /** One `draw.text` call on the watermark layer. */
  datatype Mark = Mark(text: string, font: FontChoice, size: int, fill: Rgba, x: int, y: int)

  datatype Watermarked = Watermarked(image: Image, marks: seq<Mark>)

  /** Where repetition `i` of the watermark goes: `i` steps of `size // (repeat_count + 1)` along both axes. */
  function WatermarkSpot(width: nat, height: nat, repeatCount: nat, i: nat): (int, int)
  {
    ((width / (repeatCount + 1)) * i, (height / (repeatCount + 1)) * i)
  }

  /** Every repetition starts inside the image when the image is not empty. */
  lemma WatermarkSpotInside(width: nat, height: nat, repeatCount: nat, i: nat)
    requires width > 0 && height > 0 && i <= repeatCount
    ensures var (x, y) := WatermarkSpot(width, height, repeatCount, i);
            0 <= x < width && 0 <= y < height
  {
    StepInside(width, repeatCount, i);
    StepInside(height, repeatCount, i);
  }

  lemma StepInside(size: nat, repeatCount: nat, i: nat)
    requires size > 0 && i <= repeatCount
    ensures 0 <= i * (size / (repeatCount + 1)) < size
  {
    var n := repeatCount + 1;
    var q := size / n;
    assert n * q <= size;
    if q > 0 {
      calc {
        i * q;
      <= { MulMonotone(i, repeatCount, q); }
        repeatCount * q;
      ==
        n * q - q;
      <
        size;
      }
    }
  }

  lemma MulMonotone(a: nat, b: nat, q: nat)
    requires a <= b
    ensures a * q <= b * q
  {
  }

  /**
   * `apply_watermark`: the colour is decoded first (a malformed colour
   * raises), then the text is drawn `repeat_count + 1` times on a transparent
   * layer of the image's size, which is composited over the image and
   * converted back to RGB.
   */
  method ApplyWatermark(img: Image, text: string, fontName: string, fontSize: int, color: string,
                        transparency: int, repeatCount: nat, installed: set<string>)
    returns (r: Result<Watermarked, ImageError>)
    ensures r.Ok? <==> DecodeColor(color, transparency).Some?
    ensures r.Ok? ==> r.value.image == Image(img.width, img.height, RGB)
    ensures r.Ok? ==> |r.value.marks| == repeatCount + 1
    ensures r.Ok? ==> forall i :: 0 <= i < |r.value.marks| ==>
              var m := r.value.marks[i];
              m.text == text && m.size == fontSize && m.fill == DecodeColor(color, transparency).value &&
              m.font == ResolveFont(WatermarkFontPath(fontName), installed) &&
              (m.x, m.y) == WatermarkSpot(img.width, img.height, repeatCount, i)
  {
    var font := ResolveFont(WatermarkFontPath(fontName), installed);
    var fill := DecodeColor(color, transparency);
    if fill.None? {
      return Err(BadHexColor);
    }
    var marks := PlaceMarks(text, font, fontSize, fill.value, img.width, img.height, repeatCount);
    r := Ok(Watermarked(Image(img.width, img.height, RGB), marks));
  }

  /** The loop of `apply_watermark`: `repeat_count + 1` copies of the text, copy `i` at its spot. */
  method PlaceMarks(text: string, font: FontChoice, size: int, fill: Rgba, width: nat, height: nat, repeatCount: nat)
    returns (marks: seq<Mark>)
    ensures |marks| == repeatCount + 1
    ensures forall i :: 0 <= i < |marks| ==>
              var spot := WatermarkSpot(width, height, repeatCount, i);
              marks[i] == Mark(text, font, size, fill, spot.0, spot.1)
  {
    marks := [];
    for i := 0 to repeatCount + 1
      invariant |marks| == i
      invariant forall k :: 0 <= k < i ==>
                  var spot := WatermarkSpot(width, height, repeatCount, k);
                  marks[k] == Mark(text, font, size, fill, spot.0, spot.1)
    {
      var spot := WatermarkSpot(width, height, repeatCount, i);
      marks := marks + [Mark(text, font, size, fill, spot.0, spot.1)];
    }
  }

  // ---------------------------------------------------------------- text

  /** Lines are split on this marker. */
  const LineBreak: string := "<br>"

  /** Extra pixels between two lines, on top of the font size. */
  const LineGap: int := 5

  /**
   * The draws `add_text` makes on a `width` x `height` image: one per line of
   * `text`, all at `x/100*width`, line `i` at `y/100*height + i*(size+5)`,
   * filled with "#" + `color`.
   */
  function TextDraws(width: nat, height: nat, text: string, font: FontChoice, size: int,
                     x: real, y: real, color: string, align: string): (draws: seq<Event>)
  {
    var lines := Split(text, LineBreak);
    seq(|lines|, i requires 0 <= i < |lines| =>
      Event.DrawText(lines[i], font, size, "#" + color, align,
                     x / 100.0 * width as real, y / 100.0 * height as real + (i * (size + LineGap)) as real))
  }

  /** The drawn lines, joined with the marker again, are exactly the text, and none contains the marker. */
  lemma TextDrawsCoverText(width: nat, height: nat, text: string, font: FontChoice, size: int,
                           x: real, y: real, color: string, align: string)
    ensures var draws := TextDraws(width, height, text, font, size, x, y, color, align);
            |draws| >= 1 &&
            (forall i :: 0 <= i < |draws| ==> draws[i].DrawText? && !Contains(draws[i].text, LineBreak)) &&
            Join(seq(|draws|, i requires 0 <= i < |draws| => draws[i].text), LineBreak) == text
  {
    var lines := Split(text, LineBreak);
    var draws := TextDraws(width, height, text, font, size, x, y, color, align);
    assert seq(|draws|, i requires 0 <= i < |draws| => draws[i].text) == lines;
    JoinSplit(text, LineBreak);
    SplitPiecesAvoidSeparator(text, LineBreak);
    forall i | 0 <= i < |draws| ensures !Contains(draws[i].text, LineBreak) {
      assert draws[i].text == lines[i] && lines[i] in lines;
    }
  }

  /** Consecutive lines are one font size plus the gap apart, all in one column. */
  lemma TextLinesStack(width: nat, height: nat, text: string, font: FontChoice, size: int,
                       x: real, y: real, color: string, align: string, i: nat)
    requires i + 1 < |TextDraws(width, height, text, font, size, x, y, color, align)|
    ensures var draws := TextDraws(width, height, text, font, size, x, y, color, align);
            draws[i + 1].left == draws[i].left &&
            draws[i + 1].top - draws[i].top == (size + LineGap) as real
  {
  }

  /**
   * `add_text`: resolve the font, then draw each line of `text` onto the
   * image in place. PIL reads the fill at the first `draw.text`, so an
   * unreadable colour raises before any line is drawn.
   */
  method AddText(img: Canvas, text: string, fontName: string, fontSize: int, x: real, y: real,
                 color: string, align: string, installed: set<string>) returns (raised: bool)
    modifies img
    ensures raised <==> !HashColourParses(color)
    ensures raised ==> img.events == old(img.events)
    ensures !raised ==>
              img.events == old(img.events) +
                            TextDraws(img.width, img.height, text, ResolveFont(TextFontPath(fontName), installed),
                                      fontSize, x, y, color, align)
  {
    var font := ResolveFont(TextFontPath(fontName), installed);
    var top := y / 100.0 * img.height as real;
    var left := x / 100.0 * img.width as real;
    var fill := "#" + color;
    var lines := Split(text, LineBreak);
    var lineHeight := fontSize + LineGap;
    ghost var draws := TextDraws(img.width, img.height, text, font, fontSize, x, y, color, align);
    raised := false;
    for i := 0 to |lines|
      invariant img.events == old(img.events) + draws[..i]
      invariant i > 0 ==> HashColourParses(color)
    {
      if !HashColourParses(color) {
        raised := true;
        return;
      }
      img.DrawText(lines[i], font, fontSize, fill, align, left, top + (i * lineHeight) as real);
      assert draws[..i + 1] == draws[..i] + [draws[i]];
    }
    assert draws[..|lines|] == draws;
  }
}
