/** Terminal captures turned into HTML (scripts/ansi_to_gallery.py): SGR codes
    (section 8.3.117 of ECMA-48) become styled spans. The input is the list of
    tokens the script's pattern finds. */
module AnsiHtml {
  import opened Wrappers
  import opened TextForm

  datatype Token = Text(text: string) | Sgr(codes: seq<nat>) | Dropped

  /** The fields of the script's `Style`, as one value. */
  datatype Look = Look(
    fg: Option<string>, bg: Option<string>, bold: bool, dim: bool, italic: bool, underline: bool, reverse: bool)

  const PLAIN := Look(None, None, false, false, false, false, false)

  const DEFAULT_FG := "#d6dae0"
  const DEFAULT_BG := "#12151a"

  // ---- Colours ----

  const BASE_COLORS: seq<(nat, nat, nat)> := [
    (0x00, 0x00, 0x00), (0xCD, 0x31, 0x31), (0x0D, 0xBC, 0x79), (0xE5, 0xE5, 0x10),
    (0x24, 0x72, 0xC8), (0xBC, 0x3F, 0xBC), (0x11, 0xA8, 0xCD), (0xE5, 0xE5, 0xE5),
    (0x66, 0x66, 0x66), (0xF1, 0x4C, 0x4C), (0x23, 0xD1, 0x8B), (0xF5, 0xF5, 0x43),
    (0x3B, 0x8E, 0xEA), (0xD6, 0x70, 0xD6), (0x29, 0xB8, 0xDB), (0xFF, 0xFF, 0xFF)]

  const CUBE_STEPS: seq<nat> := [0x00, 0x5F, 0x87, 0xAF, 0xD7, 0xFF]

  function Xterm256(index: nat): (r: (nat, nat, nat))
  {
    if index < 16 then BASE_COLORS[index]
    else if index < 232 then
      var i := index - 16;
      (CUBE_STEPS[i / 36 % 6], CUBE_STEPS[i / 6 % 6], CUBE_STEPS[i % 6])
    else
      var level := 8 + (index - 232) * 10;
      (level, level, level)
  }

  const DIGITS := "0123456789abcdef"

  function Hex(n: nat): (r: string)
    ensures r != [] && forall i :: 0 <= i < |r| ==> r[i] in DIGITS
  {
    if n < 16 then [DIGITS[n]] else Hex(n / 16) + [DIGITS[n % 16]]
  }

  function TwoDigits(n: nat): (r: string)
  {
    if n < 16 then "0" + Hex(n) else Hex(n)
  }

  function HexColor(rgb: (nat, nat, nat)): (r: string)
  {
    "#" + TwoDigits(rgb.0) + TwoDigits(rgb.1) + TwoDigits(rgb.2)
  }

  function BaseColor(i: nat): (r: string)
    requires i < 16
  {
    HexColor(BASE_COLORS[i])
  }

  // ---- SGR ----

  /** What one code does, apart from the extended colours. */
  function SimpleCode(look: Look, code: nat): (r: Look)
  {
    if code < 30 then FlagCode(look, code) else ColorCode(look, code)
  }

  function FlagCode(look: Look, code: nat): (r: Look)
    ensures r.fg == if code == 0 then None else look.fg
    ensures r.bg == if code == 0 then None else look.bg
  {
    match code
    case 0 => PLAIN
    case 1 => look.(bold := true)
    case 2 => look.(dim := true)
    case 3 => look.(italic := true)
    case 4 => look.(underline := true)
    case 7 => look.(reverse := true)
    case 21 | 22 => look.(bold := false, dim := false)
    case 23 => look.(italic := false)
    case 24 => look.(underline := false)
    case 27 => look.(reverse := false)
    case _ => look
  }

  function ColorCode(look: Look, code: nat): (r: Look)
  {
    if 30 <= code <= 37 then look.(fg := Some(BaseColor(code - 30)))
    else if 90 <= code <= 97 then look.(fg := Some(BaseColor(code - 90 + 8)))
    else if 40 <= code <= 47 then look.(bg := Some(BaseColor(code - 40)))
    else if 100 <= code <= 107 then look.(bg := Some(BaseColor(code - 100 + 8)))
    else if code == 39 then look.(fg := None)
    else if code == 49 then look.(bg := None)
    else look
  }

  function Painted(look: Look, code: nat, color: string): (r: Look)
  {
    if code == 38 then look.(fg := Some(color)) else look.(bg := Some(color))
  }

  /** How many codes the first one takes with it. */
  function Width(codes: seq<nat>): (n: nat)
    requires codes != []
    ensures 1 <= n <= |codes|
  {
    if codes[0] != 38 && codes[0] != 48 then 1
    else if |codes| > 2 && codes[1] == 5 then 3
    else if |codes| > 4 && codes[1] == 2 then 5
    else 1
  }

  function FirstCode(look: Look, codes: seq<nat>): (r: Look)
    requires codes != []
  {
    match Width(codes)
    case 3 => Painted(look, codes[0], HexColor(Xterm256(codes[2])))
    case 5 => Painted(look, codes[0], HexColor((codes[2], codes[3], codes[4])))
    case _ => SimpleCode(look, codes[0])
  }

  function ApplyCodes(look: Look, codes: seq<nat>): (r: Look)
    decreases |codes|
  {
    if codes == [] then look else ApplyCodes(FirstCode(look, codes), codes[Width(codes)..])
  }

  /** A whole SGR sequence; without parameters it means code 0. */
  function ApplySequence(look: Look, codes: seq<nat>): (r: Look)
  {
    ApplyCodes(look, if codes == [] then [0] else codes)
  }

  /** The script's mutable style. */
  class Style {
    var fg: Option<string>
    var bg: Option<string>
    var bold: bool
    var dim: bool
    var italic: bool
    var underline: bool
    var reverse: bool

    function Key(): (r: Look)
      reads this
    {
      Look(fg, bg, bold, dim, italic, underline, reverse)
    }

    constructor ()
      ensures Key() == PLAIN
    {
      fg, bg, bold, dim, italic, underline, reverse := None, None, false, false, false, false, false;
    }

    method Reset()
      modifies this
      ensures Key() == PLAIN
    {
      fg, bg, bold, dim, italic, underline, reverse := None, None, false, false, false, false, false;
    }

    /** One of the codes that take no arguments. */
    method Simple(code: nat)
      modifies this
      ensures Key() == SimpleCode(old(Key()), code)
    {
      if code == 0 { Reset(); }
      else if code == 1 { bold := true; }
      else if code == 2 { dim := true; }
      else if code == 3 { italic := true; }
      else if code == 4 { underline := true; }
      else if code == 7 { reverse := true; }
      else if code == 21 || code == 22 { bold, dim := false, false; }
      else if code == 23 { italic := false; }
      else if code == 24 { underline := false; }
      else if code == 27 { reverse := false; }
      else if 30 <= code <= 37 { fg := Some(BaseColor(code - 30)); }
      else if 90 <= code <= 97 { fg := Some(BaseColor(code - 90 + 8)); }
      else if 40 <= code <= 47 { bg := Some(BaseColor(code - 40)); }
      else if 100 <= code <= 107 { bg := Some(BaseColor(code - 100 + 8)); }
      else if code == 39 { fg := None; }
      else if code == 49 { bg := None; }
    }

    /** The cursor walks over the codes and skips the arguments it has used. */
    method ApplySgr(params: seq<nat>)
      modifies this
      ensures Key() == ApplySequence(old(Key()), params)
    {
      hide SimpleCode, HexColor, Xterm256, ApplyCodes;
      var codes := if params == [] then [0] else params;
      var i := 0;
      assert codes[0..] == codes;
      while i < |codes|
        invariant 0 <= i <= |codes|
        invariant ApplyCodes(Key(), codes[i..]) == ApplyCodes(old(Key()), codes)
      {
        var code := codes[i];
        CursorStep(Key(), codes, i);
        if code == 38 || code == 48 {
          var color: Option<string> := None;
          if i + 2 < |codes| && codes[i + 1] == 5 {
            color := Some(HexColor(Xterm256(codes[i + 2])));
            i := i + 2;
          } else if i + 4 < |codes| && codes[i + 1] == 2 {
            color := Some(HexColor((codes[i + 2], codes[i + 3], codes[i + 4])));
            i := i + 4;
          }
          if color.Some? {
            if code == 38 {
              fg := color;
            } else {
              bg := color;
            }
          } else {
            BareExtendedCode(Key(), code);
          }
        } else {
          Simple(code);
        }
        i := i + 1;
      }
      NoCodes(Key());
      assert codes[|codes|..] == [];
    }
  }

  lemma NoCodes(look: Look)
    ensures ApplyCodes(look, []) == look
  {
  }

  /** One turn of the cursor at position `i`. */
  lemma CursorStep(look: Look, codes: seq<nat>, i: nat)
    requires i < |codes|
    ensures ApplyCodes(look, codes[i..]) ==
            if codes[i] !in {38, 48} then ApplyCodes(SimpleCode(look, codes[i]), codes[i + 1..])
            else if i + 2 < |codes| && codes[i + 1] == 5 then
              ApplyCodes(Painted(look, codes[i], HexColor(Xterm256(codes[i + 2]))), codes[i + 3..])
            else if i + 4 < |codes| && codes[i + 1] == 2 then
              ApplyCodes(Painted(look, codes[i], HexColor((codes[i + 2], codes[i + 3], codes[i + 4]))), codes[i + 5..])
            else ApplyCodes(SimpleCode(look, codes[i]), codes[i + 1..])
  {
    hide SimpleCode, HexColor, Xterm256, Painted;
    var rest := codes[i..];
    assert rest[Width(rest)..] == codes[i + Width(rest)..];
  }

  /** An extended colour without its arguments does nothing. */
  lemma BareExtendedCode(look: Look, code: nat)
    requires code == 38 || code == 48
    ensures SimpleCode(look, code) == look
  {
  }

  /** The palette's first sixteen colours are the plain and the bright codes, and
      its cube is the colours spelt out as red, green and blue, for text and background. */
  lemma PaletteAgrees(look: Look, code: nat, r: nat, g: nat, b: nat, n: nat)
    requires (code == 38 || code == 48) && r < 6 && g < 6 && b < 6 && n < 8
    ensures ApplySequence(look, [code, 5, 16 + 36 * r + 6 * g + b])
         == ApplySequence(look, [code, 2, CUBE_STEPS[r], CUBE_STEPS[g], CUBE_STEPS[b]])
    ensures ApplySequence(look, [code, 5, n]) == ApplySequence(look, [code - 8 + n])
    ensures ApplySequence(look, [code, 5, n + 8]) == ApplySequence(look, [code + 52 + n])
  {
    hide HexColor, ApplySequence, SimpleCode, Xterm256;
    CubeColor(r, g, b);
    PlainCodes(look, code, n);
    OneCode(look, [code, 5, 16 + 36 * r + 6 * g + b]);
    OneCode(look, [code, 2, CUBE_STEPS[r], CUBE_STEPS[g], CUBE_STEPS[b]]);
    OneCode(look, [code, 5, n]);
    OneCode(look, [code, 5, n + 8]);
    OneCode(look, [code - 8 + n]);
    OneCode(look, [code + 52 + n]);
  }

  lemma CubeColor(r: nat, g: nat, b: nat)
    requires r < 6 && g < 6 && b < 6
    ensures Xterm256(16 + 36 * r + 6 * g + b) == (CUBE_STEPS[r], CUBE_STEPS[g], CUBE_STEPS[b])
  {
    CubeIndex(r, g, b);
  }

  lemma CubeIndex(r: nat, g: nat, b: nat)
    requires r < 6 && g < 6 && b < 6
    ensures var i := 36 * r + 6 * g + b; i / 36 % 6 == r && i / 6 % 6 == g && i % 6 == b
  {
    var i := 36 * r + 6 * g + b;
    assert i / 36 == r;
    assert i / 6 == 6 * r + g;
  }

  lemma PlainCodes(look: Look, code: nat, n: nat)
    requires (code == 38 || code == 48) && n < 8
    ensures SimpleCode(look, code - 8 + n) == Painted(look, code, HexColor(Xterm256(n)))
    ensures SimpleCode(look, code + 52 + n) == Painted(look, code, HexColor(Xterm256(n + 8)))
  {
    hide HexColor;
  }

  lemma OneCode(look: Look, codes: seq<nat>)
    requires codes != [] && Width(codes) == |codes|
    ensures ApplySequence(look, codes) == FirstCode(look, codes)
  {
    hide FirstCode;
    var after := FirstCode(look, codes);
    assert codes[Width(codes)..] == [];
    assert ApplyCodes(after, []) == after;
  }

  // ---- CSS ----

  const WEIGHT := "font-weight:700"
  const OPACITY := "opacity:.62"
  const ITALIC := "font-style:italic"
  const UNDERLINE := "text-decoration:underline"

  function Foreground(look: Look): (r: string)
  {
    if look.fg.Some? then look.fg.value else DEFAULT_FG
  }

  function Background(look: Look): (r: string)
  {
    if look.bg.Some? then look.bg.value else DEFAULT_BG
  }

  function When(condition: bool, part: string): (r: seq<string>)
  {
    if condition then [part] else []
  }

  function CssParts(look: Look): (r: seq<string>)
  {
    var fg := if look.reverse then Background(look) else Foreground(look);
    var bg := if look.reverse then Foreground(look) else Background(look);
    ["color:" + fg] + When(bg != DEFAULT_BG, "background:" + bg) + When(look.bold, WEIGHT)
    + When(look.dim, OPACITY) + When(look.italic, ITALIC) + When(look.underline, UNDERLINE)
  }

  function Css(look: Look): (r: string)
  {
    Join(CssParts(look), ';')
  }

  // ---- What a browser shows ----

  /** How a character looks, with colours of type `C`. */
  datatype Appearance<C> = Appearance(
    color: C, background: C, bold: bool, dim: bool, italic: bool, underline: bool)

  /** The meaning of a look: reverse video exchanges the two colours. */
  function Shown(look: Look): (r: Appearance<string>)
  {
    Appearance(
      if look.reverse then Background(look) else Foreground(look),
      if look.reverse then Foreground(look) else Background(look),
      look.bold, look.dim, look.italic, look.underline)
  }

  /** A colour on the screen; CSS also has ones with an opacity. */
  datatype Paint = Opaque(red: nat, green: nat, blue: nat) | Translucent(red: nat, green: nat, blue: nat, alpha: nat)

  predicate IsHex(c: char)
  {
    '0' <= c <= '9' || 'a' <= c <= 'f' || 'A' <= c <= 'F'
  }

  function HexDigit(c: char): (r: nat)
    requires IsHex(c)
    ensures r < 16
  {
    if '0' <= c <= '9' then (c - '0') as nat
    else if 'a' <= c <= 'f' then (c - 'a') as nat + 10
    else (c - 'A') as nat + 10
  }

  function HexByte(s: string, at: nat): (r: nat)
    requires at + 1 < |s| && IsHex(s[at]) && IsHex(s[at + 1])
    ensures r < 256
  {
    16 * HexDigit(s[at]) + HexDigit(s[at + 1])
  }

  /** The hexadecimal colours of CSS with two digits a component: six digits, or
      eight of which the last two are the opacity. Any other length is no colour. */
  function ReadColor(s: string): (r: Option<Paint>)
  {
    if |s| !in {7, 9} || s[0] != '#' || !(forall i :: 1 <= i < |s| ==> IsHex(s[i])) then None
    else if |s| == 7 then Some(Opaque(HexByte(s, 1), HexByte(s, 3), HexByte(s, 5)))
    else Some(Translucent(HexByte(s, 1), HexByte(s, 3), HexByte(s, 5), HexByte(s, 7)))
  }

  function PaintOr(s: string, other: Paint): (r: Paint)
  {
    if ReadColor(s).Some? then ReadColor(s).value else other
  }

  const PAGE_FG := Opaque(0xd6, 0xda, 0xe0)
  const PAGE_BG := Opaque(0x12, 0x15, 0x1a)

  /** The page's own colours, before any declaration. */
  const PAGE := Appearance(PAGE_FG, PAGE_BG, false, false, false, false)

  /** What the page shows for a look: a colour that is none falls back to the page's. */
  function Seen(look: Look): (r: Appearance<Paint>)
  {
    var shown := Shown(look);
    Appearance(PaintOr(shown.color, PAGE_FG), PaintOr(shown.background, PAGE_BG),
               shown.bold, shown.dim, shown.italic, shown.underline)
  }

  lemma PageColors()
    ensures ReadColor(DEFAULT_FG) == Some(PAGE_FG) && ReadColor(DEFAULT_BG) == Some(PAGE_BG)
  {
    assert HexByte(DEFAULT_FG, 1) == 0xd6 && HexByte(DEFAULT_FG, 3) == 0xda && HexByte(DEFAULT_FG, 5) == 0xe0;
    assert HexByte(DEFAULT_BG, 1) == 0x12 && HexByte(DEFAULT_BG, 3) == 0x15 && HexByte(DEFAULT_BG, 5) == 0x1a;
  }

  predicate StartsWith(s: string, prefix: string)
  {
    |prefix| <= |s| && s[..|prefix|] == prefix
  }

  /** One declaration; a malformed colour makes the browser drop it. */
  function Declared(shown: Appearance<Paint>, part: string): (r: Appearance<Paint>)
  {
    if StartsWith(part, "color:") then shown.(color := PaintOr(part[6..], shown.color))
    else if StartsWith(part, "background:") then shown.(background := PaintOr(part[11..], shown.background))
    else if part == "font-weight:700" then shown.(bold := true)
    else if part == "opacity:.62" then shown.(dim := true)
    else if part == "font-style:italic" then shown.(italic := true)
    else if part == "text-decoration:underline" then shown.(underline := true)
    else shown
  }

  function DeclaredAll(shown: Appearance<Paint>, parts: seq<string>): (r: Appearance<Paint>)
    decreases |parts|
  {
    if parts == [] then shown else DeclaredAll(Declared(shown, parts[0]), parts[1..])
  }

  /** A style attribute read back as a list of declarations. */
  function ReadCss(css: string): (r: Appearance<Paint>)
  {
    DeclaredAll(PAGE, Split(css, ';'))
  }

  /** Colours are made of `#` and hexadecimal digits. */
  predicate ColorChars(s: string)
  {
    forall i :: 0 <= i < |s| ==> s[i] == '#' || s[i] in DIGITS
  }

  predicate Safe(look: Look)
  {
    (look.fg.Some? ==> ColorChars(look.fg.value)) && (look.bg.Some? ==> ColorChars(look.bg.value))
  }

  lemma {:induction false} DeclaredConcat(shown: Appearance<Paint>, a: seq<string>, b: seq<string>)
    ensures DeclaredAll(shown, a + b) == DeclaredAll(DeclaredAll(shown, a), b)
    decreases |a|
  {
    hide Declared;
    if a == [] {
      assert a + b == b;
    } else {
      assert (a + b)[1..] == a[1..] + b;
      DeclaredConcat(Declared(shown, a[0]), a[1..], b);
    }
  }

  lemma DeclaredOne(shown: Appearance<Paint>, condition: bool, part: string)
    ensures DeclaredAll(shown, When(condition, part)) == if condition then Declared(shown, part) else shown
  {
    hide Declared;
    assert [part][1..] == [];
  }

  lemma ColorDeclarations(shown: Appearance<Paint>, color: string)
    ensures Declared(shown, "color:" + color) == shown.(color := PaintOr(color, shown.color))
    ensures Declared(shown, "background:" + color) == shown.(background := PaintOr(color, shown.background))
  {
    hide PaintOr;
    var part, other := "color:" + color, "background:" + color;
    assert part[..6] == "color:" && part[6..] == color;
    assert other[..11] == "background:" && other[11..] == color;
    assert other[0] == 'b' && other[..6][0] == 'b';
  }

  lemma FlagDeclarations(shown: Appearance<Paint>)
    ensures Declared(shown, WEIGHT) == shown.(bold := true)
    ensures Declared(shown, OPACITY) == shown.(dim := true)
    ensures Declared(shown, ITALIC) == shown.(italic := true)
    ensures Declared(shown, UNDERLINE) == shown.(underline := true)
  {
    hide StartsWith, PaintOr;
    NotAColor(WEIGHT);
    NotAColor(OPACITY);
    NotAColor(ITALIC);
    NotAColor(UNDERLINE);
    assert WEIGHT[5] == 'w' && ITALIC[5] == 's' && OPACITY[5] == 't' && UNDERLINE[5] == 'd';
    assert OPACITY[0] == 'o' && UNDERLINE[0] == 't';
  }

  lemma NotAColor(part: string)
    requires part != "" && part[0] != 'c' && part[0] != 'b'
    ensures !StartsWith(part, "color:") && !StartsWith(part, "background:")
  {
    if |part| >= 6 {
      assert part[..6][0] == part[0];
    }
    if |part| >= 11 {
      assert part[..11][0] == part[0];
    }
  }

  lemma PartsSafe(look: Look, c: char)
    requires Safe(look) && (c == ';' || c == '"')
    ensures AllWithout(CssParts(look), c)
  {
    hide Without, Foreground, Background;
    FixedPartsSafe(c);
    ColorsSafe(look, c);
    var shown := Shown(look);
    WithoutConcat("color:", shown.color, c);
    WithoutConcat("background:", shown.background, c);
  }

  lemma FixedPartsSafe(c: char)
    requires c == ';' || c == '"'
    ensures Without("color:", c) && Without("background:", c)
    ensures Without(WEIGHT, c) && Without(OPACITY, c) && Without(ITALIC, c) && Without(UNDERLINE, c)
  {
  }

  lemma ColorsSafe(look: Look, c: char)
    requires Safe(look) && (c == ';' || c == '"')
    ensures Without(Foreground(look), c) && Without(Background(look), c)
  {
    assert c !in DIGITS;
    assert ColorChars(DEFAULT_FG) && ColorChars(DEFAULT_BG);
  }

  lemma WithoutConcat(a: string, b: string, c: char)
    requires Without(a, c) && Without(b, c)
    ensures Without(a + b, c)
  {
  }

  /** The attribute says exactly what the look means, as far as its colours are colours. */
  lemma CssReadsBack(look: Look)
    requires Safe(look)
    ensures Without(Css(look), '"')
    ensures ReadCss(Css(look)) == Seen(look)
  {
    hide Declared, Without, PaintOr;
    PageBackground();
    PartsSafe(look, ';');
    PartsSafe(look, '"');
    SplitJoin(CssParts(look), ';');
    JoinWithout(CssParts(look), ';', '"');
    var fg, bg := Shown(look).color, Shown(look).background;
    var p0 := ["color:" + fg];
    var p1 := p0 + When(bg != DEFAULT_BG, "background:" + bg);
    var p2 := p1 + When(look.bold, WEIGHT);
    var p3 := p2 + When(look.dim, OPACITY);
    var p4 := p3 + When(look.italic, ITALIC);
    DeclaredOne(PAGE, true, "color:" + fg);
    ColorDeclarations(PAGE, fg);
    var s0 := PAGE.(color := PaintOr(fg, PAGE_FG));
    DeclaredConcat(PAGE, p0, When(bg != DEFAULT_BG, "background:" + bg));
    DeclaredOne(s0, bg != DEFAULT_BG, "background:" + bg);
    ColorDeclarations(s0, bg);
    var s1 := s0.(background := PaintOr(bg, PAGE_BG));
    DeclaredConcat(PAGE, p1, When(look.bold, WEIGHT));
    DeclaredOne(s1, look.bold, WEIGHT);
    FlagDeclarations(s1);
    var s2 := s1.(bold := look.bold);
    DeclaredConcat(PAGE, p2, When(look.dim, OPACITY));
    DeclaredOne(s2, look.dim, OPACITY);
    FlagDeclarations(s2);
    var s3 := s2.(dim := look.dim);
    DeclaredConcat(PAGE, p3, When(look.italic, ITALIC));
    DeclaredOne(s3, look.italic, ITALIC);
    FlagDeclarations(s3);
    var s4 := s3.(italic := look.italic);
    DeclaredConcat(PAGE, p4, When(look.underline, UNDERLINE));
    DeclaredOne(s4, look.underline, UNDERLINE);
    FlagDeclarations(s4);
  }

  lemma PageBackground()
    ensures PaintOr(DEFAULT_BG, PAGE_BG) == PAGE_BG
  {
    PageColors();
  }

  lemma {:induction false} CodesStaySafe(look: Look, codes: seq<nat>)
    requires Safe(look)
    ensures Safe(ApplyCodes(look, codes))
    decreases |codes|
  {
    hide HexColor, SimpleCode, Xterm256, ColorChars;
    if codes != [] {
      SimpleStaysSafe(look, codes[0]);
      if Width(codes) == 3 {
        HexIsSafe(Xterm256(codes[2]));
      } else if Width(codes) == 5 {
        HexIsSafe((codes[2], codes[3], codes[4]));
      }
      CodesStaySafe(FirstCode(look, codes), codes[Width(codes)..]);
    }
  }

  lemma HexIsSafe(rgb: (nat, nat, nat))
    ensures ColorChars(HexColor(rgb))
  {
    hide Hex;
    assert DIGITS[0] == '0';
  }

  lemma SimpleStaysSafe(look: Look, code: nat)
    requires Safe(look)
    ensures Safe(SimpleCode(look, code))
  {
    hide FlagCode, ColorCode, ColorChars;
    if code >= 30 {
      ColorStaysSafe(look, code);
    }
  }

  lemma ColorStaysSafe(look: Look, code: nat)
    requires Safe(look)
    ensures Safe(ColorCode(look, code))
  {
    hide BaseColor, ColorChars;
    if 30 <= code <= 37 {
      BaseIsSafe(code - 30);
    } else if 90 <= code <= 97 {
      BaseIsSafe(code - 90 + 8);
    } else if 40 <= code <= 47 {
      BaseIsSafe(code - 40);
    } else if 100 <= code <= 107 {
      BaseIsSafe(code - 100 + 8);
    }
  }

  lemma BaseIsSafe(i: nat)
    requires i < 16
    ensures ColorChars(BaseColor(i))
  {
    hide HexColor, ColorChars;
    HexIsSafe(BASE_COLORS[i]);
  }

  // ---- Escaping ----

  function EscapeChar(c: char): (r: string)
    ensures r != ""
  {
    if c == '&' then "&amp;"
    else if c == '<' then "&lt;"
    else if c == '>' then "&gt;"
    else if c == '"' then "&quot;"
    else if c == '\'' then "&#x27;"
    else [c]
  }

  function Escape(text: string): (r: string)
  {
    if text == "" then "" else EscapeChar(text[0]) + Escape(text[1..])
  }

  /** A character reference at the start of the markup: the character it names
      and its length. */
  function ReadEntity(html: string): (r: Option<(char, nat)>)
    ensures r.Some? ==> 1 <= r.value.1 <= |html|
  {
    if StartsWith(html, "&amp;") then Some(('&', 5))
    else if StartsWith(html, "&lt;") then Some(('<', 4))
    else if StartsWith(html, "&gt;") then Some(('>', 4))
    else if StartsWith(html, "&quot;") then Some(('"', 6))
    else if StartsWith(html, "&#x27;") then Some(('\'', 6))
    else None
  }

  lemma EntityReadsBack(c: char, rest: string)
    requires EscapeChar(c) != [c]
    ensures ReadEntity(EscapeChar(c) + rest) == Some((c, |EscapeChar(c)|))
  {
    var e := EscapeChar(c);
    var html := e + rest;
    assert html[..|e|] == e;
    assert html[1] == e[1];
    assert StartsWith(html, "&amp;") ==> html[..5][1] == 'a';
    assert StartsWith(html, "&lt;") ==> html[..4][1] == 'l';
    assert StartsWith(html, "&gt;") ==> html[..4][1] == 'g';
    assert StartsWith(html, "&quot;") ==> html[..6][1] == 'q';
  }

  // ---- Runs of equally styled text ----

  datatype Run = Run(look: Look, text: string)

  function Appended(runs: seq<Run>, look: Look, text: string): (r: seq<Run>)
  {
    if text == "" then runs
    else if runs != [] && runs[|runs| - 1].look == look then
      runs[..|runs| - 1] + [Run(look, runs[|runs| - 1].text + text)]
    else runs + [Run(look, text)]
  }

  /** The tokens grouped: neighbouring text of one look is one run. */
  function Runs(tokens: seq<Token>, look: Look, runs: seq<Run>): (r: seq<Run>)
    decreases |tokens|
  {
    if tokens == [] then runs
    else
      match tokens[0]
      case Text(text) => Runs(tokens[1..], look, Appended(runs, look, text))
      case Sgr(codes) => Runs(tokens[1..], ApplySequence(look, codes), runs)
      case Dropped => Runs(tokens[1..], look, runs)
  }

  /** No run is empty, and neighbours differ in look. */
  predicate Maximal(runs: seq<Run>)
  {
    && (forall i :: 0 <= i < |runs| ==> runs[i].text != "")
    && (forall i :: 0 <= i < |runs| - 1 ==> runs[i].look != runs[i + 1].look)
  }

  lemma {:induction false} RunsAreMaximal(tokens: seq<Token>, look: Look, runs: seq<Run>)
    requires Maximal(runs)
    ensures Maximal(Runs(tokens, look, runs))
    decreases |tokens|
  {
    hide ApplySequence;
    if tokens != [] {
      match tokens[0]
      case Text(text) =>
        RunsAreMaximal(tokens[1..], look, Appended(runs, look, text));
      case Sgr(codes) =>
        RunsAreMaximal(tokens[1..], ApplySequence(look, codes), runs);
      case Dropped =>
        RunsAreMaximal(tokens[1..], look, runs);
    }
  }

  const CLOSE := "</span>"

  function Opening(look: Look): (r: string)
  {
    "<span style=\"" + Css(look) + "\">"
  }

  /** One span a run. */
  function Rendered(runs: seq<Run>): (r: string)
  {
    if runs == [] then ""
    else Rendered(runs[..|runs| - 1]) + Opening(runs[|runs| - 1].look) + Escape(runs[|runs| - 1].text) + CLOSE
  }

  /** The same with the last span still open. */
  function RenderedOpen(runs: seq<Run>): (r: string)
  {
    if runs == [] then ""
    else Rendered(runs[..|runs| - 1]) + Opening(runs[|runs| - 1].look) + Escape(runs[|runs| - 1].text)
  }

  function LastLook(runs: seq<Run>): (r: Option<Look>)
  {
    if runs == [] then None else Some(runs[|runs| - 1].look)
  }

  lemma {:induction false} EscapeConcat(a: string, b: string)
    ensures Escape(a + b) == Escape(a) + Escape(b)
  {
    hide EscapeChar;
    if a == "" {
      assert a + b == b;
    } else {
      assert (a + b)[1..] == a[1..] + b;
      EscapeConcat(a[1..], b);
    }
  }

  /** What `emit` does to the output, in terms of the runs so far. */
  lemma EmitAppends(runs: seq<Run>, look: Look, text: string)
    requires text != ""
    ensures LastLook(Appended(runs, look, text)) == Some(look)
    ensures LastLook(runs) == Some(look) ==>
              RenderedOpen(Appended(runs, look, text)) == RenderedOpen(runs) + Escape(text)
    ensures LastLook(runs) != Some(look) ==>
              RenderedOpen(Appended(runs, look, text)) == Rendered(runs) + Opening(look) + Escape(text)
  {
    hide Escape, Opening;
    var after := Appended(runs, look, text);
    if LastLook(runs) == Some(look) {
      var last := runs[|runs| - 1];
      EscapeConcat(last.text, text);
      assert after[..|after| - 1] == runs[..|runs| - 1];
    } else {
      assert after[..|after| - 1] == runs;
    }
  }

  /** The single pass over the tokens, which keeps the look of the span that is
      open, writes one span for each maximal run. */
  method AnsiToHtml(tokens: seq<Token>) returns (html: string)
    ensures html == Rendered(Runs(tokens, PLAIN, []))
  {
    hide Escape, Opening, ApplySequence, Appended, Rendered, RenderedOpen, LastLook;
    var style := new Style();
    html := "";
    var openKey: Option<Look> := None;
    ghost var runs: seq<Run> := [];
    EmptyRuns();
    assert tokens[0..] == tokens;
    for i := 0 to |tokens|
      invariant fresh(style)
      invariant html == RenderedOpen(runs) && openKey == LastLook(runs)
      invariant Runs(tokens[i..], style.Key(), runs) == Runs(tokens, PLAIN, [])
    {
      assert tokens[i..][1..] == tokens[i + 1..];
      match tokens[i]
      case Text(text) =>
        if text != "" {
          EmitAppends(runs, style.Key(), text);
          if openKey != Some(style.Key()) {
            if openKey.Some? {
              html := html + CLOSE;
            }
            RenderedCloses(runs);
            html := html + Opening(style.Key());
            openKey := Some(style.Key());
          }
          html := html + Escape(text);
        }
        AppendNothing(runs, style.Key());
        runs := Appended(runs, style.Key(), text);
      case Sgr(codes) =>
        style.ApplySgr(codes);
      case Dropped =>
    }
    assert tokens[|tokens|..] == [];
    RenderedCloses(runs);
    if openKey.Some? {
      html := html + CLOSE;
    }
  }

  lemma EmptyRuns()
    ensures RenderedOpen([]) == "" && LastLook([]) == None
  {
  }

  lemma AppendNothing(runs: seq<Run>, look: Look)
    ensures Appended(runs, look, "") == runs
  {
  }

  lemma RenderedCloses(runs: seq<Run>)
    ensures Rendered(runs) == RenderedOpen(runs) + if LastLook(runs).Some? then CLOSE else ""
  {
    hide Escape, Opening;
  }

  // ---- Reading the markup ----

  datatype Cell<T> = Cell(c: char, style: T)

  const SPAN := "<span style=\""

  /** A reader for the markup. Text stands only inside a span, spans do not nest
      and each one is closed; anything else is refused. `open` is the style
      attribute of the span the reader is in. */
  function Decode(html: string, open: Option<string>): (r: Option<seq<Cell<string>>>)
    decreases |html|
  {
    if html == "" then if open.None? then Some([]) else None
    else if open.None? then
      if !StartsWith(html, SPAN) then None
      else
        var rest := html[|SPAN|..];
        var css := UpTo(rest, '"');
        if StartsWith(rest[|css|..], "\">") then Decode(rest[|css| + 2..], Some(css)) else None
    else if html[0] == '<' then
      if StartsWith(html, CLOSE) then Decode(html[|CLOSE|..], None) else None
    else if html[0] == '&' then
      match ReadEntity(html)
      case None => None
      case Some((c, length)) => Prepend(Cell(c, open.value), Decode(html[length..], open))
    else Prepend(Cell(html[0], open.value), Decode(html[1..], open))
  }

  function Prepend<T>(cell: Cell<T>, rest: Option<seq<Cell<T>>>): (r: Option<seq<Cell<T>>>)
  {
    match rest
    case None => None
    case Some(cells) => Some([cell] + cells)
  }

  function Styled<T>(text: string, style: T): (r: seq<Cell<T>>)
  {
    seq(|text|, i requires 0 <= i < |text| => Cell(text[i], style))
  }

  function Before<T>(cells: seq<Cell<T>>, rest: Option<seq<Cell<T>>>): (r: Option<seq<Cell<T>>>)
  {
    match rest
    case None => None
    case Some(more) => Some(cells + more)
  }

  lemma PrefixStarts(prefix: string, rest: string)
    ensures StartsWith(prefix + rest, prefix)
    ensures (prefix + rest)[|prefix|..] == rest
  {
  }

  lemma DecodeClose(css: string, rest: string)
    ensures Decode(CLOSE + rest, Some(css)) == Decode(rest, None)
  {
    hide ReadEntity, UpTo;
    PrefixStarts(CLOSE, rest);
  }

  lemma BeforeNothing<T>(rest: Option<seq<Cell<T>>>)
    ensures Before([], rest) == rest
  {
    if rest.Some? {
      assert [] + rest.value == rest.value;
    }
  }

  lemma PrependBefore<T>(cell: Cell<T>, cells: seq<Cell<T>>, rest: Option<seq<Cell<T>>>)
    ensures Prepend(cell, Before(cells, rest)) == Before([cell] + cells, rest)
  {
    if rest.Some? {
      assert [cell] + (cells + rest.value) == [cell] + cells + rest.value;
    }
  }

  lemma {:induction false} DecodeText(text: string, css: string, rest: string)
    ensures Decode(Escape(text) + (CLOSE + rest), Some(css)) == Before(Styled(text, css), Decode(rest, None))
    decreases |text|
  {
    hide Decode, EscapeChar, Before;
    var after := Decode(rest, None);
    if text == "" {
      assert Escape(text) + (CLOSE + rest) == CLOSE + rest;
      DecodeClose(css, rest);
      assert Styled(text, css) == [];
      BeforeNothing(after);
    } else {
      var tail := Escape(text[1..]) + (CLOSE + rest);
      assert Escape(text) + (CLOSE + rest) == EscapeChar(text[0]) + tail;
      DecodeChar(text[0], css, tail);
      DecodeText(text[1..], css, rest);
      PrependBefore(Cell(text[0], css), Styled(text[1..], css), after);
      assert Styled(text, css) == [Cell(text[0], css)] + Styled(text[1..], css);
    }
  }

  lemma DecodeChar(c: char, css: string, tail: string)
    ensures Decode(EscapeChar(c) + tail, Some(css)) == Prepend(Cell(c, css), Decode(tail, Some(css)))
  {
    var head := EscapeChar(c);
    assert (head + tail)[0] == head[0] && (head + tail)[|head|..] == tail;
    if head != [c] {
      EntityReadsBack(c, tail);
      hide ReadEntity;
    }
  }

  lemma DecodeRun(run: Run, rest: string)
    requires Safe(run.look)
    ensures Decode(Opening(run.look) + Escape(run.text) + CLOSE + rest, None)
         == Before(Styled(run.text, Css(run.look)), Decode(rest, None))
  {
    hide Css, Escape, ReadEntity;
    var css := Css(run.look);
    CssReadsBack(run.look);
    var body := Escape(run.text) + (CLOSE + rest);
    var html := SPAN + (css + ("\">" + body));
    assert Opening(run.look) + Escape(run.text) + CLOSE + rest == html;
    PrefixStarts(SPAN, css + ("\">" + body));
    UpToStop(css, '"', "\">" + body);
    PrefixStarts(css, "\">" + body);
    PrefixStarts("\">", body);
    var attribute := css + ("\">" + body);
    assert attribute[|css| + 2..] == body;
    DecodeText(run.text, css, rest);
  }

  // ---- Meaning ----

  /** The tokens interpreted directly: each character with the look in force. */
  function Interpret(tokens: seq<Token>, look: Look): (r: seq<Cell<Look>>)
    decreases |tokens|
  {
    if tokens == [] then []
    else
      match tokens[0]
      case Text(text) => Styled(text, look) + Interpret(tokens[1..], look)
      case Sgr(codes) => Interpret(tokens[1..], ApplySequence(look, codes))
      case Dropped => Interpret(tokens[1..], look)
  }

  function Cells(runs: seq<Run>): (r: seq<Cell<Look>>)
  {
    if runs == [] then [] else Cells(runs[..|runs| - 1]) + Styled(runs[|runs| - 1].text, runs[|runs| - 1].look)
  }

  lemma AppendedCells(runs: seq<Run>, look: Look, text: string)
    ensures Cells(Appended(runs, look, text)) == Cells(runs) + Styled(text, look)
  {
    var after := Appended(runs, look, text);
    if text == "" {
      assert Cells(runs) + Styled(text, look) == Cells(runs);
    } else if LastLook(runs) == Some(look) {
      var last := runs[|runs| - 1];
      assert after[..|after| - 1] == runs[..|runs| - 1];
      assert Styled(last.text + text, look) == Styled(last.text, look) + Styled(text, look);
    } else {
      assert after[..|after| - 1] == runs;
    }
  }

  /** Grouping changes neither the characters nor their looks. */
  lemma {:induction false} RunsKeepMeaning(tokens: seq<Token>, look: Look, runs: seq<Run>)
    ensures Cells(Runs(tokens, look, runs)) == Cells(runs) + Interpret(tokens, look)
    decreases |tokens|
  {
    hide ApplySequence, Cells, Styled, Appended;
    if tokens != [] {
      var rest := tokens[1..];
      match tokens[0]
      case Text(text) =>
        AppendedCells(runs, look, text);
        RunsKeepMeaning(rest, look, Appended(runs, look, text));
      case Sgr(codes) =>
        RunsKeepMeaning(rest, ApplySequence(look, codes), runs);
      case Dropped =>
        RunsKeepMeaning(rest, look, runs);
    }
  }

  predicate AllSafe(runs: seq<Run>)
  {
    forall i :: 0 <= i < |runs| ==> Safe(runs[i].look)
  }

  lemma {:induction false} RunsStaySafe(tokens: seq<Token>, look: Look, runs: seq<Run>)
    requires Safe(look) && AllSafe(runs)
    ensures AllSafe(Runs(tokens, look, runs))
    decreases |tokens|
  {
    hide Safe, ApplyCodes;
    if tokens != [] {
      match tokens[0]
      case Text(text) =>
        RunsStaySafe(tokens[1..], look, Appended(runs, look, text));
      case Sgr(codes) =>
        CodesStaySafe(look, if codes == [] then [0] else codes);
        RunsStaySafe(tokens[1..], ApplySequence(look, codes), runs);
      case Dropped =>
        RunsStaySafe(tokens[1..], look, runs);
    }
  }

  /** Cells with their looks written as style attributes. */
  function WithCss(cells: seq<Cell<Look>>): (r: seq<Cell<string>>)
  {
    seq(|cells|, i requires 0 <= i < |cells| => Cell(cells[i].c, Css(cells[i].style)))
  }

  lemma {:induction false} DecodeRuns(runs: seq<Run>, rest: string)
    requires AllSafe(runs)
    ensures Decode(Rendered(runs) + rest, None) == Before(WithCss(Cells(runs)), Decode(rest, None))
    decreases |runs|
  {
    hide Css, Opening, Escape, Decode, Safe;
    if runs == [] {
      assert Rendered(runs) + rest == rest;
      if Decode(rest, None).Some? {
        assert WithCss(Cells(runs)) + Decode(rest, None).value == Decode(rest, None).value;
      }
    } else {
      var last := runs[|runs| - 1];
      var before := runs[..|runs| - 1];
      var more := Opening(last.look) + Escape(last.text) + CLOSE + rest;
      assert Rendered(runs) + rest == Rendered(before) + more;
      DecodeRuns(before, more);
      DecodeRun(last, rest);
      var earlier, added := WithCss(Cells(before)), Styled(last.text, Css(last.look));
      assert WithCss(Cells(runs)) == earlier + added;
      if Decode(rest, None).Some? {
        assert earlier + (added + Decode(rest, None).value) == earlier + added + Decode(rest, None).value;
      }
    }
  }

  /** Reading the page back gives every character in order with the style
      attribute of the look the terminal would have used. */
  lemma HtmlKeepsMeaning(tokens: seq<Token>)
    ensures Maximal(Runs(tokens, PLAIN, []))
    ensures Decode(Rendered(Runs(tokens, PLAIN, [])), None) == Some(WithCss(Interpret(tokens, PLAIN)))
  {
    hide Css, Rendered, ApplySequence, Cells, Interpret, ReadEntity;
    var runs := Runs(tokens, PLAIN, []);
    RunsAreMaximal(tokens, PLAIN, []);
    RunsStaySafe(tokens, PLAIN, []);
    DecodeRuns(runs, "");
    assert Rendered(runs) + "" == Rendered(runs);
    RunsKeepMeaning(tokens, PLAIN, []);
    NoCells();
    assert [] + Interpret(tokens, PLAIN) == Interpret(tokens, PLAIN);
    var cells := WithCss(Interpret(tokens, PLAIN));
    assert Before(cells, Some([])) == Some(cells) by {
      assert cells + [] == cells;
    }
  }

  lemma NoCells()
    ensures Cells([]) == []
  {
  }

  /** And each of those attributes makes the browser show its look. */
  lemma {:induction false} AttributesShowTheLook(tokens: seq<Token>, look: Look, k: nat)
    requires Safe(look) && k < |Interpret(tokens, look)|
    ensures ReadCss(WithCss(Interpret(tokens, look))[k].style) == Seen(Interpret(tokens, look)[k].style)
    decreases |tokens|
  {
    hide Safe, ApplyCodes, Css, ReadCss, Seen;
    var rest := tokens[1..];
    match tokens[0]
    case Text(text) =>
      if k < |text| {
        CssReadsBack(look);
      } else {
        AttributesShowTheLook(rest, look, k - |text|);
      }
    case Sgr(codes) =>
      CodesStaySafe(look, if codes == [] then [0] else codes);
      AttributesShowTheLook(rest, ApplySequence(look, codes), k);
    case Dropped =>
      AttributesShowTheLook(rest, look, k);
  }

  /** Escaped text holds no character that markup is made of. */
  lemma {:induction false} EscapedIsInert(text: string, i: nat)
    requires i < |Escape(text)|
    ensures Escape(text)[i] !in {'<', '>', '"', '\''}
  {
    var head := EscapeChar(text[0]);
    if i >= |head| {
      EscapedIsInert(text[1..], i - |head|);
    } else {
      InertChar(text[0], i);
    }
  }

  lemma InertChar(c: char, i: nat)
    requires i < |EscapeChar(c)|
    ensures EscapeChar(c)[i] !in {'<', '>', '"', '\''}
  {
  }
}
