/** A terminal with its own pen, whose colours are red, green and blue: the reference
    the gallery page is compared with (scripts/ansi_to_gallery.py). */
module AnsiTerminal {
  import opened Wrappers
  import opened AnsiHtml

  type Rgb = (nat, nat, nat)

  /** The terminal's pen: the colours chosen, if any, and the renditions in force. */
  datatype Pen = Pen(
    fg: Option<Rgb>, bg: Option<Rgb>, bold: bool, dim: bool, italic: bool, underline: bool, reverse: bool)

  const NO_PEN := Pen(None, None, false, false, false, false, false)

  function BaseInk(i: nat): (r: Rgb)
    requires i < 16
  {
    BASE_COLORS[i]
  }

  /** A rendition after one code of section 8.3.117 of ECMA-48: set by one code, and
      cancelled by others and by 0. */
  function Rendition(now: bool, code: nat, setting: nat, cancelled: set<nat>): (r: bool)
  {
    code == setting || (now && code != 0 && code !in cancelled)
  }

  /** A colour after one code: eight plain ones, eight bright ones, and the default. */
  function Colour(now: Option<Rgb>, code: nat, plain: nat, bright: nat, standard: nat): (r: Option<Rgb>)
  {
    if code == 0 || code == standard then None
    else if plain <= code < plain + 8 then Some(BaseInk(code - plain))
    else if bright <= code < bright + 8 then Some(BaseInk(code - bright + 8))
    else now
  }

  function PenCode(pen: Pen, code: nat): (r: Pen)
  {
    Pen(Colour(pen.fg, code, 30, 90, 39), Colour(pen.bg, code, 40, 100, 49),
        Rendition(pen.bold, code, 1, {21, 22}), Rendition(pen.dim, code, 2, {21, 22}),
        Rendition(pen.italic, code, 3, {23}), Rendition(pen.underline, code, 4, {24}),
        Rendition(pen.reverse, code, 7, {27}))
  }

  /** The steps of the colour cube: 0, 95, 135, 175, 215 and 255. */
  function CubeStep(n: nat): (r: nat)
  {
    if n == 0 then 0 else 55 + 40 * n
  }

  /** The 256 colours: the base ones, a cube of six steps a side, and a grey ramp. */
  function Palette(index: nat): (r: Rgb)
  {
    if index < 16 then BaseInk(index)
    else if index < 232 then
      (CubeStep((index - 16) / 36), CubeStep((index - 16) / 6 % 6), CubeStep((index - 16) % 6))
    else (10 * index - 2312, 10 * index - 2312, 10 * index - 2312)
  }

  /** The next code with its arguments, applied: the pen and the codes left. */
  function PenStep(pen: Pen, codes: seq<nat>): (r: (Pen, seq<nat>))
    requires codes != []
    ensures |r.1| < |codes|
  {
    if codes[0] == 38 && |codes| >= 3 && codes[1] == 5 then (pen.(fg := Some(Palette(codes[2]))), codes[3..])
    else if codes[0] == 48 && |codes| >= 3 && codes[1] == 5 then (pen.(bg := Some(Palette(codes[2]))), codes[3..])
    else if codes[0] == 38 && |codes| >= 5 && codes[1] == 2 then
      (pen.(fg := Some((codes[2], codes[3], codes[4]))), codes[5..])
    else if codes[0] == 48 && |codes| >= 5 && codes[1] == 2 then
      (pen.(bg := Some((codes[2], codes[3], codes[4]))), codes[5..])
    else (PenCode(pen, codes[0]), codes[1..])
  }

  function PenCodes(pen: Pen, codes: seq<nat>): (r: Pen)
    decreases |codes|
  {
    if codes == [] then pen else PenCodes(PenStep(pen, codes).0, PenStep(pen, codes).1)
  }

  function PenSequence(pen: Pen, codes: seq<nat>): (r: Pen)
  {
    PenCodes(pen, if codes == [] then [0] else codes)
  }

  /** The colour an extended code chooses. */
  function Chosen(codes: seq<nat>): (r: Rgb)
    requires codes != [] && Width(codes) > 1
  {
    if Width(codes) == 3 then Xterm256(codes[2]) else (codes[2], codes[3], codes[4])
  }

  // ---- The page keeps in step with the pen ----

  function Printed(color: Option<Rgb>): (r: Option<string>)
  {
    if color.Some? then Some(HexColor(color.value)) else None
  }

  /** The page's style holds the pen's colours in print, and its renditions. */
  predicate Prints(look: Look, pen: Pen)
  {
    && look.fg == Printed(pen.fg) && look.bg == Printed(pen.bg)
    && look.bold == pen.bold && look.dim == pen.dim && look.italic == pen.italic
    && look.underline == pen.underline && look.reverse == pen.reverse
  }

  lemma FlagsInStep(look: Look, pen: Pen, code: nat)
    requires Prints(look, pen) && code < 30
    ensures Prints(FlagCode(look, code), PenCode(pen, code))
  {
    hide HexColor, BaseInk, FlagCode, Rendition;
    WeightCodes(look, code);
    SlantCodes(look, code);
    ReverseCodes(look, code);
  }

  lemma WeightCodes(look: Look, code: nat)
    ensures FlagCode(look, code).bold == Rendition(look.bold, code, 1, {21, 22})
    ensures FlagCode(look, code).dim == Rendition(look.dim, code, 2, {21, 22})
  {
  }

  lemma SlantCodes(look: Look, code: nat)
    ensures FlagCode(look, code).italic == Rendition(look.italic, code, 3, {23})
    ensures FlagCode(look, code).underline == Rendition(look.underline, code, 4, {24})
  {
  }

  lemma ReverseCodes(look: Look, code: nat)
    ensures FlagCode(look, code).reverse == Rendition(look.reverse, code, 7, {27})
  {
  }

  lemma ColorsInStep(look: Look, pen: Pen, code: nat)
    requires Prints(look, pen) && code >= 30
    ensures Prints(ColorCode(look, code), PenCode(pen, code))
  {
    hide HexColor, BaseColor, BaseInk;
    if 30 <= code <= 37 {
      BasePrints(code - 30);
    } else if 90 <= code <= 97 {
      BasePrints(code - 82);
    } else if 40 <= code <= 47 {
      BasePrints(code - 40);
    } else if 100 <= code <= 107 {
      BasePrints(code - 92);
    }
  }

  lemma BasePrints(i: nat)
    requires i < 16
    ensures BaseColor(i) == HexColor(BaseInk(i))
  {
    hide HexColor;
  }

  lemma PaletteIs(index: nat)
    ensures Palette(index) == Xterm256(index)
  {
    if 16 <= index < 232 {
      var i := index - 16;
      assert i / 36 % 6 == i / 36;
      CubeStepIs(i / 36);
      CubeStepIs(i / 6 % 6);
      CubeStepIs(i % 6);
    }
  }

  lemma CubeStepIs(n: nat)
    requires n < 6
    ensures CubeStep(n) == CUBE_STEPS[n]
  {
  }

  lemma ExtendedInStep(look: Look, pen: Pen, codes: seq<nat>)
    requires Prints(look, pen) && codes != [] && Width(codes) > 1
    ensures Prints(FirstCode(look, codes), PenStep(pen, codes).0) && PenStep(pen, codes).1 == codes[Width(codes)..]
  {
    PaletteIs(codes[2]);
    hide HexColor, Xterm256, SimpleCode, PenCode, Palette;
  }

  lemma FirstInStep(look: Look, pen: Pen, codes: seq<nat>)
    requires Prints(look, pen) && codes != []
    ensures Prints(FirstCode(look, codes), PenStep(pen, codes).0) && PenStep(pen, codes).1 == codes[Width(codes)..]
  {
    hide PenCode, ColorCode, FlagCode, Prints, Painted, Xterm256, Palette;
    if Width(codes) > 1 {
      ExtendedInStep(look, pen, codes);
    } else if codes[0] < 30 {
      FlagsInStep(look, pen, codes[0]);
    } else {
      ColorsInStep(look, pen, codes[0]);
    }
  }

  /** A primary colour is on in a base colour exactly where its number says. */
  predicate Lights(i: nat, r: nat, g: nat, b: nat)
  {
    && (i % 2 == 1 && i / 2 % 2 == 0 ==> r > g) && (i % 2 == 1 && i / 4 % 2 == 0 ==> r > b)
    && (i % 2 == 0 && i / 2 % 2 == 1 ==> g > r) && (i / 2 % 2 == 1 && i / 4 % 2 == 0 ==> g > b)
    && (i % 2 == 0 && i / 4 % 2 == 1 ==> b > r) && (i / 2 % 2 == 0 && i / 4 % 2 == 1 ==> b > g)
  }

  /** The base colours are the ones their numbers stand for: red, green and blue are
      the bits of the number, lit above the ones that are not, and bright above plain. */
  lemma BaseColorsFollowTheBits(i: nat)
    requires i < 8
    ensures Lights(i, BaseInk(i).0, BaseInk(i).1, BaseInk(i).2) && Lights(i, BaseInk(i + 8).0, BaseInk(i + 8).1, BaseInk(i + 8).2)
    ensures BaseInk(i + 8).0 + BaseInk(i + 8).1 + BaseInk(i + 8).2 > BaseInk(i).0 + BaseInk(i).1 + BaseInk(i).2
  {
    assert i == 0 || i == 1 || i == 2 || i == 3 || i == 4 || i == 5 || i == 6 || i == 7;
  }

  /** Every sequence of codes keeps the page's style in step with the pen. */
  lemma {:induction false} CodesInStep(look: Look, pen: Pen, codes: seq<nat>)
    requires Prints(look, pen)
    ensures Prints(ApplyCodes(look, codes), PenCodes(pen, codes))
    decreases |codes|
  {
    hide Prints, FirstCode, PenStep, Width;
    if codes != [] {
      FirstInStep(look, pen, codes);
      CodesInStep(FirstCode(look, codes), PenStep(pen, codes).0, codes[Width(codes)..]);
    }
  }

  // ---- Which colours a page can show ----

  /** Every component fits a byte. */
  predicate Small(rgb: Rgb)
  {
    rgb.0 < 256 && rgb.1 < 256 && rgb.2 < 256
  }

  lemma DigitReadsBack(d: nat)
    requires d < 16
    ensures IsHex(DIGITS[d]) && HexDigit(DIGITS[d]) == d
  {
  }

  lemma ByteReadsBack(n: nat)
    requires n < 256
    ensures var s := TwoDigits(n); |s| == 2 && IsHex(s[0]) && IsHex(s[1]) && HexByte(s, 0) == n
  {
    DigitReadsBack(n % 16);
    DigitReadsBack(n / 16);
    ShortHex(n);
    hide HexDigit, IsHex;
  }

  lemma ShortHex(n: nat)
    requires n < 256
    ensures TwoDigits(n) == [DIGITS[n / 16], DIGITS[n % 16]]
  {
    if n < 16 {
      assert DIGITS[0] == '0';
      assert Hex(n) == [DIGITS[n]];
    } else {
      assert Hex(n / 16) == [DIGITS[n / 16]];
    }
  }

  lemma {:induction false} BigIsLong(n: nat)
    ensures |TwoDigits(n)| >= 2 && (n >= 256 ==> |TwoDigits(n)| >= 3)
  {
    if n >= 256 {
      assert Hex(n) == Hex(n / 16) + [DIGITS[n % 16]];
      assert Hex(n / 16) == Hex(n / 16 / 16) + [DIGITS[n / 16 % 16]];
    }
  }

  lemma BytesOf(a: string, b: string, c: string, text: string)
    requires |a| == |b| == |c| == 2 && text == "#" + a + b + c
    requires IsHex(a[0]) && IsHex(a[1]) && IsHex(b[0]) && IsHex(b[1]) && IsHex(c[0]) && IsHex(c[1])
    ensures ReadColor(text) == Some(Opaque(HexByte(a, 0), HexByte(b, 0), HexByte(c, 0)))
  {
    assert text[1] == a[0] && text[2] == a[1] && text[3] == b[0] && text[4] == b[1] && text[5] == c[0] && text[6] == c[1];
    hide HexDigit;
  }

  /** A printed colour has six digits, and reads back as itself, if and only if its
      components fit a byte. */
  lemma ColorReadsBackIff(rgb: Rgb)
    ensures |HexColor(rgb)| == 7 <==> Small(rgb)
    ensures ReadColor(HexColor(rgb)) == Some(Opaque(rgb.0, rgb.1, rgb.2)) <==> Small(rgb)
  {
    var a, b, c := TwoDigits(rgb.0), TwoDigits(rgb.1), TwoDigits(rgb.2);
    BigIsLong(rgb.0);
    BigIsLong(rgb.1);
    BigIsLong(rgb.2);
    hide TwoDigits, HexDigit, IsHex;
    if Small(rgb) {
      ByteReadsBack(rgb.0);
      ByteReadsBack(rgb.1);
      ByteReadsBack(rgb.2);
      BytesOf(a, b, c, HexColor(rgb));
    }
  }

  /** The palette runs one past its end before its colours stop being ones. */
  lemma PaletteIsSmallIff(index: nat)
    ensures Small(Xterm256(index)) <==> index <= 256
  {
  }

  /** Every extended colour of a sequence is one a page can show. */
  predicate Showable(codes: seq<nat>)
    decreases |codes|
  {
    codes == [] ||
    ((match Width(codes)
      case 3 => codes[2] <= 256
      case 5 => codes[2] <= 255 && codes[3] <= 255 && codes[4] <= 255
      case _ => true)
     && Showable(codes[Width(codes)..]))
  }

  /** The extended colours a sequence chooses, in order. */
  function Choices(codes: seq<nat>): (r: seq<Rgb>)
    decreases |codes|
  {
    if codes == [] then []
    else (if Width(codes) > 1 then [Chosen(codes)] else []) + Choices(codes[Width(codes)..])
  }

  /** Every colour a sequence writes into the page is `#` and six digits if and
      only if no palette index exceeds 256 and no component 255. */
  lemma {:induction false} SixDigitsIff(codes: seq<nat>)
    ensures (forall i :: 0 <= i < |Choices(codes)| ==> |HexColor(Choices(codes)[i])| == 7) <==> Showable(codes)
    decreases |codes|
  {
    hide HexColor, Xterm256;
    if codes != [] {
      var rest := Choices(codes[Width(codes)..]);
      SixDigitsIff(codes[Width(codes)..]);
      if Width(codes) > 1 {
        var first := Chosen(codes);
        ColorReadsBackIff(first);
        if Width(codes) == 3 {
          PaletteIsSmallIff(codes[2]);
        }
        assert Choices(codes) == [first] + rest;
        assert Choices(codes)[0] == first && Choices(codes)[1..] == rest;
        assert forall i :: 0 <= i < |rest| ==> Choices(codes)[i + 1] == rest[i];
      } else {
        assert Choices(codes) == rest;
      }
    }
  }

  // ---- What the terminal shows ----

  function Lit(color: Option<Rgb>, other: Paint): (r: Paint)
  {
    if color.Some? then Opaque(color.value.0, color.value.1, color.value.2) else other
  }

  /** A character's appearance on the terminal; reverse video exchanges the colours. */
  function OnTerminal(pen: Pen): (r: Appearance<Paint>)
  {
    var fg, bg := Lit(pen.fg, PAGE_FG), Lit(pen.bg, PAGE_BG);
    Appearance(if pen.reverse then bg else fg, if pen.reverse then fg else bg,
               pen.bold, pen.dim, pen.italic, pen.underline)
  }

  function Terminal(tokens: seq<Token>, pen: Pen): (r: seq<Cell<Appearance<Paint>>>)
    decreases |tokens|
  {
    if tokens == [] then []
    else
      match tokens[0]
      case Text(text) => Styled(text, OnTerminal(pen)) + Terminal(tokens[1..], pen)
      case Sgr(codes) => Terminal(tokens[1..], PenSequence(pen, codes))
      case Dropped => Terminal(tokens[1..], pen)
  }

  predicate ByteSized(paint: Paint)
  {
    paint.red < 256 && paint.green < 256 && paint.blue < 256
  }

  /** Both colours of an appearance fit bytes. */
  predicate CanBeShown(shown: Appearance<Paint>)
  {
    ByteSized(shown.color) && ByteSized(shown.background)
  }

  lemma ColorSeenIff(color: Option<Rgb>, text: string, standard: string, other: Paint, fallback: Paint)
    requires text == (if color.Some? then HexColor(color.value) else standard)
    requires ReadColor(standard) == Some(other) && ByteSized(other) && ByteSized(fallback)
    ensures PaintOr(text, fallback) == Lit(color, other) <==> ByteSized(Lit(color, other))
  {
    if color.Some? {
      ColorReadsBackIff(color.value);
    }
    hide HexColor;
  }

  lemma SeenIff(look: Look, pen: Pen)
    requires Prints(look, pen)
    ensures Seen(look) == OnTerminal(pen) <==> CanBeShown(OnTerminal(pen))
  {
    hide HexColor, PaintOr, ReadColor, Lit, ByteSized;
    PageColors();
    assert ByteSized(PAGE_FG) && ByteSized(PAGE_BG) by {
      PageColorsAreByteSized();
    }
    ColorSeenIff(pen.fg, Foreground(look), DEFAULT_FG, PAGE_FG, if look.reverse then PAGE_BG else PAGE_FG);
    ColorSeenIff(pen.bg, Background(look), DEFAULT_BG, PAGE_BG, if look.reverse then PAGE_FG else PAGE_BG);
  }

  lemma PageColorsAreByteSized()
    ensures ByteSized(PAGE_FG) && ByteSized(PAGE_BG)
  {
  }

  /** Every character of the page looks as on the terminal if and only if its
      colours on the terminal fit bytes. */
  lemma {:induction false} PageShowsTheTerminalIff(tokens: seq<Token>, look: Look, pen: Pen, k: nat)
    requires Safe(look) && Prints(look, pen) && k < |Interpret(tokens, look)|
    ensures k < |Terminal(tokens, pen)|
    ensures var cell := Terminal(tokens, pen)[k];
      && Interpret(tokens, look)[k].c == cell.c
      && (ReadCss(WithCss(Interpret(tokens, look))[k].style) == cell.style <==> CanBeShown(cell.style))
    decreases |tokens|
  {
    hide Safe, Prints, ApplyCodes, PenCodes, Css, ReadCss, Seen, OnTerminal, CanBeShown;
    var rest := tokens[1..];
    match tokens[0]
    case Text(text) =>
      if k < |text| {
        CssReadsBack(look);
        SeenIff(look, pen);
      } else {
        PageShowsTheTerminalIff(rest, look, pen, k - |text|);
      }
    case Sgr(codes) =>
      var given := if codes == [] then [0] else codes;
      CodesStaySafe(look, given);
      CodesInStep(look, pen, given);
      PageShowsTheTerminalIff(rest, ApplySequence(look, codes), PenSequence(pen, codes), k);
    case Dropped =>
      PageShowsTheTerminalIff(rest, look, pen, k);
  }

  // ---- A condition on the input ----

  predicate SmallPen(pen: Pen)
  {
    (pen.fg.Some? ==> Small(pen.fg.value)) && (pen.bg.Some? ==> Small(pen.bg.value))
  }

  lemma SimpleStaysSmall(pen: Pen, code: nat)
    requires SmallPen(pen)
    ensures SmallPen(PenCode(pen, code))
  {
    forall i: nat | i < 16
      ensures Small(BaseInk(i))
    {
      PaletteIsSmallIff(i);
    }
    hide BaseInk, Small, Rendition;
  }

  lemma {:induction false} CodesStaySmall(pen: Pen, codes: seq<nat>)
    requires SmallPen(pen) && Showable(codes)
    ensures SmallPen(PenCodes(pen, codes))
    decreases |codes|
  {
    hide Xterm256, PenCode, Small, Palette;
    if codes != [] {
      SimpleStaysSmall(pen, codes[0]);
      if Width(codes) == 3 {
        PaletteIs(codes[2]);
        PaletteIsSmallIff(codes[2]);
      } else if Width(codes) == 5 {
        DirectIsSmall(codes[2], codes[3], codes[4]);
      }
      assert PenStep(pen, codes).1 == codes[Width(codes)..];
      CodesStaySmall(PenStep(pen, codes).0, codes[Width(codes)..]);
    }
  }

  lemma DirectIsSmall(r: nat, g: nat, b: nat)
    ensures Small((r, g, b)) <==> r <= 255 && g <= 255 && b <= 255
  {
  }

  predicate AllShowable(tokens: seq<Token>)
  {
    forall i :: 0 <= i < |tokens| && tokens[i].Sgr? ==> Showable(tokens[i].codes)
  }

  lemma {:induction false} ShowableCellsCanBeShown(tokens: seq<Token>, pen: Pen, k: nat)
    requires SmallPen(pen) && AllShowable(tokens) && k < |Terminal(tokens, pen)|
    ensures CanBeShown(Terminal(tokens, pen)[k].style)
    decreases |tokens|
  {
    hide PenCodes, SmallPen, CanBeShown, OnTerminal;
    var rest := tokens[1..];
    match tokens[0]
    case Text(text) =>
      if k < |text| {
        SmallIsShown(pen);
      } else {
        ShowableCellsCanBeShown(rest, pen, k - |text|);
      }
    case Sgr(codes) =>
      assert Showable(if codes == [] then [0] else codes) by {
        assert tokens[0].Sgr? && Showable(tokens[0].codes);
        ResetIsShowable();
      }
      CodesStaySmall(pen, if codes == [] then [0] else codes);
      ShowableCellsCanBeShown(rest, PenSequence(pen, codes), k);
    case Dropped =>
      ShowableCellsCanBeShown(rest, pen, k);
  }

  lemma ResetIsShowable()
    ensures Showable([0])
  {
    assert [0][1..] == [];
  }

  lemma SmallIsShown(pen: Pen)
    requires SmallPen(pen)
    ensures CanBeShown(OnTerminal(pen))
  {
  }

  /** When every sequence keeps to palette indices up to 256 and components up to
      255, the whole page looks as the terminal did, character by character. */
  lemma PageShowsTheTerminal(tokens: seq<Token>, k: nat)
    requires AllShowable(tokens) && k < |Interpret(tokens, PLAIN)|
    ensures k < |Terminal(tokens, NO_PEN)|
    ensures Interpret(tokens, PLAIN)[k].c == Terminal(tokens, NO_PEN)[k].c
    ensures ReadCss(WithCss(Interpret(tokens, PLAIN))[k].style) == Terminal(tokens, NO_PEN)[k].style
  {
    hide Interpret, Terminal, ReadCss, CanBeShown, Css;
    PageShowsTheTerminalIff(tokens, PLAIN, NO_PEN, k);
    ShowableCellsCanBeShown(tokens, NO_PEN, k);
  }

  lemma PastThePaletteIsNoColor(index: nat)
    requires index > 256
    ensures ReadColor(HexColor(Xterm256(index))) == None
  {
    var level := 8 + (index - 232) * 10;
    BigIsLong(level);
    var digits := TwoDigits(level);
    assert Xterm256(index) == (level, level, level);
    hide TwoDigits, Xterm256;
    assert HexColor((level, level, level)) == "#" + digits + digits + digits;
    WrongLengthIsNoColor("#" + digits + digits + digits);
  }

  lemma WrongLengthIsNoColor(s: string)
    requires |s| != 7 && |s| != 9
    ensures ReadColor(s) == None
  {
  }

  /** Beyond that it need not: text in palette colour 257 falls back to the page's
      colour, because what is printed is no colour. */
  lemma ColorPastThePaletteIsDropped(index: nat)
    requires index > 256
    ensures !Showable([38, 5, index])
    ensures var lit := OnTerminal(NO_PEN.(fg := Some(Palette(index))));
      && Terminal([Sgr([38, 5, index]), Text("x")], NO_PEN) == [Cell('x', lit)]
      && ReadCss(Css(ApplySequence(PLAIN, [38, 5, index]))) != lit
      && ReadCss(Css(ApplySequence(PLAIN, [38, 5, index]))).color == PAGE_FG
  {
    hide HexColor, Xterm256, ReadColor, Css, ReadCss, Palette, PenCode;
    var codes := [38, 5, index];
    PastThePaletteIsNoColor(index);
    CodesStaySafe(PLAIN, codes);
    CssReadsBack(ApplySequence(PLAIN, codes));
    PaletteIs(index);
    PaletteIsSmallIff(index);
    OneCode(PLAIN, codes);
    var pen := NO_PEN.(fg := Some(Palette(index)));
    assert codes[3..] == [];
    assert PenCodes(pen, []) == pen && PenSequence(NO_PEN, codes) == pen;
    var tokens := [Sgr(codes), Text("x")];
    assert tokens[1..] == [Text("x")] && [Text("x")][1..] == [];
    FirstInStep(PLAIN, NO_PEN, codes);
    SeenIff(FirstCode(PLAIN, codes), pen);
    assert Terminal([Text("x")], pen) == Styled("x", OnTerminal(pen));
  }

  /** The first such index prints nine digits, which is no colour; and a direct
      colour with two components of three digits prints eight, which is another
      colour and has an opacity. */
  lemma MalformedColors()
    ensures HexColor(Xterm256(257)) == "#102102102" && ReadColor("#102102102") == None
    ensures HexColor((300, 0, 0)) == "#12c0000" && ReadColor("#12c0000") == None
    ensures HexColor((300, 300, 0)) == "#12c12c00" && ReadColor("#12c12c00") == Some(Translucent(0x12, 0xc1, 0x2c, 0))
  {
    HexOfThree();
    assert Xterm256(257) == (258, 258, 258);
    hide TwoDigits, Xterm256, ReadColor;
    LongColors();
  }

  lemma LongColors()
    ensures ReadColor("#102102102") == None && ReadColor("#12c0000") == None
    ensures ReadColor("#12c12c00") == Some(Translucent(0x12, 0xc1, 0x2c, 0))
  {
    var s := "#12c12c00";
    assert |s| == 9 && s[1] == '1' && s[2] == '2' && s[3] == 'c' && s[4] == '1' && s[5] == '2' && s[6] == 'c' && s[7] == '0' && s[8] == '0';
    assert forall i :: 1 <= i < |s| ==> IsHex(s[i]);
    assert HexByte(s, 1) == 0x12 && HexByte(s, 3) == 0xc1 && HexByte(s, 5) == 0x2c && HexByte(s, 7) == 0;
  }

  lemma HexOfThree()
    ensures TwoDigits(258) == "102" && TwoDigits(300) == "12c" && TwoDigits(0) == "00"
  {
    ShortHex(0);
    HexStep(16);
    HexStep(18);
    HexStep(258);
    HexStep(300);
    assert Hex(1) == [DIGITS[1]];
    hide Hex;
    assert DIGITS[0] == '0' && DIGITS[1] == '1' && DIGITS[2] == '2' && DIGITS[12] == 'c';
  }

  lemma HexStep(n: nat)
    requires n >= 16
    ensures Hex(n) == Hex(n / 16) + [DIGITS[n % 16]]
  {
  }
}
