/** cprint.py: the console colours, their RGB values and hex strings, and
    the text the colour-aware `print` writes. The ANSI escape sequences
    behind each colour come from colorama and are not part of this model:
    where the text is composed they are a parameter `code`. */
module CPrint {
  import opened Common

  /** The `Color` enum: every supported foreground colour on the black
      background, plus the terminal default. */
  datatype Color =
    | Default | White | LightGray | Gray | Black
    | DarkRed | Red | DarkYellow | Yellow | DarkGreen | Green
    | DarkCyan | Cyan | DarkBlue | Blue | Purple | Magenta

  datatype Rgb = Rgb(red: int, green: int, blue: int)

  predicate IsByte(n: int)
  {
    0 <= n < 256
  }

  predicate InByteRange(rgb: Rgb)
  {
    IsByte(rgb.red) && IsByte(rgb.green) && IsByte(rgb.blue)
  }

  /** `Color.rgb`: the foreground colour as red, green and blue; the
      default style has none. */
  function RgbOf(c: Color): (r: Option<Rgb>)
    ensures r.None? <==> c == Default
    ensures r.Some? ==> InByteRange(r.value)
  {
    match c
    case Default => None
    case White => Some(Rgb(255, 255, 255))
    case LightGray => Some(Rgb(192, 192, 192))
    case Gray => Some(Rgb(128, 128, 128))
    case Black => Some(Rgb(0, 0, 0))
    case DarkRed => Some(Rgb(128, 0, 0))
    case Red => Some(Rgb(255, 0, 0))
    case DarkYellow => Some(Rgb(128, 128, 0))
    case Yellow => Some(Rgb(255, 255, 0))
    case DarkGreen => Some(Rgb(0, 128, 0))
    case Green => Some(Rgb(0, 255, 0))
    case DarkCyan => Some(Rgb(0, 128, 128))
    case Cyan => Some(Rgb(0, 255, 255))
    case DarkBlue => Some(Rgb(0, 0, 128))
    case Blue => Some(Rgb(0, 0, 255))
    case Purple => Some(Rgb(128, 0, 128))
    case Magenta => Some(Rgb(255, 0, 255))
  }

  /** No two colours share an RGB value. */
  lemma RgbIsInjective(c: Color, d: Color)
    requires c != d
    ensures RgbOf(c) != RgbOf(d)
  {
  }

  // ---------------------------------------------------------------------
  // Hex strings.
  // ---------------------------------------------------------------------

  predicate IsHexDigit(ch: char)
  {
    '0' <= ch <= '9' || 'a' <= ch <= 'f'
  }

  /** The lower-case hex digit of a value below 16. */
  function HexDigit(d: nat): (ch: char)
    requires d < 16
    ensures IsHexDigit(ch)
  {
    if d < 10 then ('0' as int + d) as char else ('a' as int + d - 10) as char
  }

  /** The value of a lower-case hex digit, if `ch` is one. */
  function DigitValue(ch: char): (v: Option<nat>)
    ensures v.Some? <==> IsHexDigit(ch)
    ensures v.Some? ==> v.value < 16
  {
    if '0' <= ch <= '9' then Some(ch as int - '0' as int)
    else if 'a' <= ch <= 'f' then Some(ch as int - 'a' as int + 10)
    else None
  }

  lemma DigitRoundTrip(d: nat)
    requires d < 16
    ensures DigitValue(HexDigit(d)) == Some(d)
  {
  }

  lemma DigitValueRoundTrip(ch: char)
    requires IsHexDigit(ch)
    ensures HexDigit(DigitValue(ch).value) == ch
  {
  }

  /** `{:02x}` of a byte: two lower-case hex digits, zero-padded. */
  function HexByte(n: int): (s: string)
    requires IsByte(n)
    ensures |s| == 2 && IsHexDigit(s[0]) && IsHexDigit(s[1])
  {
    [HexDigit(n / 16), HexDigit(n % 16)]
  }

  /** The byte two hex digits spell, if they are hex digits. */
  function ParseHexByte(hi: char, lo: char): (n: Option<int>)
    ensures n.Some? <==> IsHexDigit(hi) && IsHexDigit(lo)
    ensures n.Some? ==> IsByte(n.value)
  {
    match (DigitValue(hi), DigitValue(lo))
    case (Some(h), Some(l)) => Some(16 * h + l)
    case _ => None
  }

  lemma HexByteRoundTrip(n: int)
    requires IsByte(n)
    ensures ParseHexByte(HexByte(n)[0], HexByte(n)[1]) == Some(n)
  {
    DigitRoundTrip(n / 16);
    DigitRoundTrip(n % 16);
  }

  lemma ParseHexByteRoundTrip(hi: char, lo: char)
    requires IsHexDigit(hi) && IsHexDigit(lo)
    ensures HexByte(ParseHexByte(hi, lo).value) == [hi, lo]
  {
    var h, l := DigitValue(hi).value, DigitValue(lo).value;
    assert (16 * h + l) / 16 == h && (16 * h + l) % 16 == l;
    DigitValueRoundTrip(hi);
    DigitValueRoundTrip(lo);
  }

  /** `"#{:02x}{:02x}{:02x}"` of an RGB value. */
  function FormatRgb(rgb: Rgb): (s: string)
    requires InByteRange(rgb)
    ensures |s| == 7 && s[0] == '#'
    ensures forall i :: 1 <= i < 7 ==> IsHexDigit(s[i])
  {
    "#" + HexByte(rgb.red) + HexByte(rgb.green) + HexByte(rgb.blue)
  }

  /** `Color.color`: the hex string of the RGB value, or "" for the
      default style. Any RGB triple is a non-empty tuple and so true, black
      included; only the missing value of the default style is false. */
  function ColorHex(c: Color): (s: string)
    ensures s == "" <==> c == Default
    ensures c != Default ==> |s| == 7 && s[0] == '#' && forall i :: 1 <= i < 7 ==> IsHexDigit(s[i])
  {
    var rgb := RgbOf(c);
    if rgb.Some? then FormatRgb(rgb.value) else ""
  }

  /** The RGB value a `#rrggbb` string names, if it is one. */
  function ParseHex(s: string): (r: Option<Rgb>)
    ensures r.Some? ==> InByteRange(r.value)
  {
    if |s| != 7 || s[0] != '#' then None
    else match (ParseHexByte(s[1], s[2]), ParseHexByte(s[3], s[4]), ParseHexByte(s[5], s[6]))
      case (Some(r), Some(g), Some(b)) => Some(Rgb(r, g, b))
      case _ => None
  }

  /** Reading a colour's hex string back gives its RGB value, for every
      colour: the default's empty string reads as no value. */
  lemma ColorHexRoundTrip(c: Color)
    ensures ParseHex(ColorHex(c)) == RgbOf(c)
  {
    if c != Default {
      FormatRgbRoundTrip(RgbOf(c).value);
    }
  }

  /** Every RGB value in byte range reads back from its hex string. */
  lemma FormatRgbRoundTrip(rgb: Rgb)
    requires InByteRange(rgb)
    ensures ParseHex(FormatRgb(rgb)) == Some(rgb)
  {
    var s := FormatRgb(rgb);
    HexByteRoundTrip(rgb.red);
    HexByteRoundTrip(rgb.green);
    HexByteRoundTrip(rgb.blue);
    assert s[1..3] == HexByte(rgb.red) && s[3..5] == HexByte(rgb.green) && s[5..7] == HexByte(rgb.blue);
  }

  /** Every string that parses is the formatted form of its value. */
  lemma ParseHexRoundTrip(s: string)
    requires ParseHex(s).Some?
    ensures FormatRgb(ParseHex(s).value) == s
  {
    ParseHexByteRoundTrip(s[1], s[2]);
    ParseHexByteRoundTrip(s[3], s[4]);
    ParseHexByteRoundTrip(s[5], s[6]);
    var rgb := ParseHex(s).value;
    assert FormatRgb(rgb) == [s[0]] + [s[1], s[2]] + [s[3], s[4]] + [s[5], s[6]];
  }

  /** Different colours have different hex strings. */
  lemma ColorHexIsInjective(c: Color, d: Color)
    requires c != d
    ensures ColorHex(c) != ColorHex(d)
  {
    ColorHexRoundTrip(c);
    ColorHexRoundTrip(d);
    RgbIsInjective(c, d);
  }

  // ---------------------------------------------------------------------
  // The emitted text.
  // ---------------------------------------------------------------------

  /** The arguments written one after another with `sep` between them. */
  function Join(args: seq<string>, sep: string): (s: string)
    ensures |args| == 1 ==> s == args[0]
    ensures |args| == 0 ==> s == ""
  {
    if |args| == 0 then "" else if |args| == 1 then args[0] else args[0] + sep + Join(args[1..], sep)
  }

  /** The text `builtins.print(*args, sep=sep, end=end)` writes; `None`
      means the default separator " " and the default end "\n". Arguments
      are given as the strings `str` turns them into. */
  function BuiltinPrint(args: seq<string>, sep: Option<string>, end: Option<string>): string
  {
    Join(args, if sep.Some? then sep.value else " ") + (if end.Some? then end.value else "\n")
  }

  /** cprint.py `print`: the colour's escape code, written alone with no
      end, then the arguments as `builtins.print` writes them. `None` as the
      colour writes no code, and the colour defaults to the default style. */
  function Print(code: Color -> string, args: seq<string>, sep: Option<string> := None,
                 end: Option<string> := None, color: Option<Color> := Some(Default)): (out: string)
    ensures color.None? ==> out == BuiltinPrint(args, sep, end)
    ensures color.Some? ==> out == code(color.value) + BuiltinPrint(args, sep, end)
  {
    (if color.Some? then BuiltinPrint([code(color.value)], None, Some("")) else "")
    + BuiltinPrint(args, sep, end)
  }

  /** The arguments start right after the escape code: no separator is put
      between the code and the first argument, whatever the separator. */
  lemma NoSeparatorAfterCode(code: Color -> string, args: seq<string>, sep: Option<string>,
                             end: Option<string>, c: Color)
    requires |args| > 0
    ensures Print(code, args, sep, end, Some(c))[..|code(c)| + |args[0]|] == code(c) + args[0]
  {
    var out := Print(code, args, sep, end, Some(c));
    var j := Join(args, if sep.Some? then sep.value else " ");
    JoinStartsWithFirst(args, if sep.Some? then sep.value else " ");
    assert out == code(c) + (j + (if end.Some? then end.value else "\n"));
    PrefixOfConcat(code(c), j + (if end.Some? then end.value else "\n"), |args[0]|);
  }

  lemma JoinStartsWithFirst(args: seq<string>, sep: string)
    requires |args| > 0
    ensures |args[0]| <= |Join(args, sep)| && Join(args, sep)[..|args[0]|] == args[0]
  {
    if |args| > 1 {
      assert Join(args, sep) == args[0] + (sep + Join(args[1..], sep));
    }
  }

  lemma PrefixOfConcat(a: string, b: string, n: nat)
    requires n <= |b|
    ensures (a + b)[..|a| + n] == a + b[..n]
  {
  }

  /** A call with no colour argument first resets the style and ends the
      line: the text starts with the default style's code and ends in "\n". */
  lemma PlainCallResetsFirst(code: Color -> string, args: seq<string>)
    ensures var out := Print(code, args);
      && out[..|code(Default)|] == code(Default)
      && |out| > 0 && out[|out| - 1] == '\n'
  {
  }
}
