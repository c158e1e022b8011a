/**
 * The configuration checks of init.go: parsing a `#rgb` / `#rrggbb` colour string into three byte
 * channels, and validating the three colours of the signature style after the properties file
 * has been decoded.
 *
 * The source parses with fmt.Sscanf. `ParseHexColorAsWritten` models what that call accepts,
 * leading blanks before a verb and ignored trailing input included; `ParseHexColor` is the strict
 * grammar the function evidently means, and is the one the properties check uses.
 */
module Config {
  import opened Common
  import opened Processor

  /** Why a colour string is rejected. */
  datatype ColorError =
    | BadLength     // "invalid colour hex length, must be 7 or 4"
    | BadSyntax     // not '#' followed by hex digits only
    | ScanMismatch  // Sscanf: the input does not start with the format's '#'
    | ScanNewline   // Sscanf: a newline where a verb's digits should start
    | ScanEof       // Sscanf: the input ends before a verb's digits
    | ScanNoDigits  // Sscanf: a verb found no hex digit

  predicate IsHexDigit(c: char)
  {
    '0' <= c <= '9' || 'a' <= c <= 'f' || 'A' <= c <= 'F'
  }

  function HexDigitValue(c: char): (v: nat)
    requires IsHexDigit(c)
    ensures v < 16
  {
    if '0' <= c <= '9' then c as int - '0' as int
    else if 'a' <= c <= 'f' then c as int - 'a' as int + 10
    else c as int - 'A' as int + 10
  }

  /** The lower-case hex digit of a value below 16. */
  function HexDigit(d: nat): (c: char)
    requires d < 16
    ensures IsHexDigit(c) && HexDigitValue(c) == d
  {
    if d < 10 then ('0' as int + d) as char else ('a' as int + d - 10) as char
  }

  function ToLower(c: char): (lower: char)
  {
    if 'A' <= c <= 'Z' then (c as int - 'A' as int + 'a' as int) as char else c
  }

  /** The number a run of hex digits spells, most significant first. */
  function HexValue(ds: string): (v: nat)
    requires forall i :: 0 <= i < |ds| ==> IsHexDigit(ds[i])
    ensures |ds| <= 1 ==> v < 16
    ensures |ds| <= 2 ==> v < 256
  {
    if ds == [] then 0 else HexValue(ds[..|ds| - 1]) * 16 + HexDigitValue(ds[|ds| - 1])
  }

  /** The number of bytes of a code point's UTF-8 encoding. */
  function Utf8Width(c: char): (n: nat)
    ensures 1 <= n <= 4
  {
    if c as int < 0x80 then 1 else if c as int < 0x800 then 2 else if c as int < 0x10000 then 3 else 4
  }

  /** Go's `len` of a string: the bytes of its UTF-8 encoding; never fewer than its characters, and as
      many exactly when every character is ASCII. */
  function Utf8Length(s: string): (n: nat)
    ensures n >= |s|
    ensures n == |s| <==> forall i :: 0 <= i < |s| ==> s[i] as int < 0x80
  {
    if s == [] then 0
    else
      var n := Utf8Width(s[0]) + Utf8Length(s[1..]);
      assert forall i :: 1 <= i < |s| ==> s[i] == s[1..][i - 1];
      n
  }

  // ---------------------------------------------------------------------------------------------
  // parseHexColor as written: fmt.Sscanf with "#%02x%02x%02x" or "#%1x%1x%1x".

  /** The characters fmt's scanner skips before a verb's operand: its white-space table (U+0009 to
      U+000D, U+0020, U+0085, U+00A0, U+1680, U+2000 to U+200A, U+2028, U+2029, U+202F, U+205F,
      U+3000) without the newline, which is an error instead. */
  predicate IsBlank(c: char)
  {
    var n := c as int;
    (0x09 <= n <= 0x0D && n != 0x0A) || n == 0x20 || n == 0x85 || n == 0xA0 || n == 0x1680
    || (0x2000 <= n <= 0x200A) || n == 0x2028 || n == 0x2029 || n == 0x202F || n == 0x205F || n == 0x3000
  }

  function SkipBlanks(s: string, pos: nat): (j: nat)
    requires pos <= |s|
    ensures pos <= j <= |s|
    ensures forall i :: pos <= i < j ==> IsBlank(s[i])
    ensures j < |s| ==> !IsBlank(s[j])
    decreases |s| - pos
  {
    if pos < |s| && IsBlank(s[pos]) then SkipBlanks(s, pos + 1) else pos
  }

  /** The end of the longest run of at most `width` hex digits starting at `pos`. */
  function HexRun(s: string, pos: nat, width: nat): (k: nat)
    requires pos <= |s|
    ensures pos <= k <= |s| && k <= pos + width
    ensures forall i :: pos <= i < k ==> IsHexDigit(s[i])
    ensures k < |s| && k < pos + width ==> !IsHexDigit(s[k])
    decreases width
  {
    if width > 0 && pos < |s| && IsHexDigit(s[pos]) then HexRun(s, pos + 1, width - 1) else pos
  }

  /** One `%0<width>x` verb scanned into a uint8 at `pos`: the value and the position after it. */
  function ScanHex(s: string, pos: nat, width: nat): (r: Result<(nat, nat), ColorError>)
    requires pos <= |s| && width <= 2
    ensures r.Ok? ==> pos < r.value.1 <= |s| && r.value.0 < 256
    ensures r.Ok? && width == 1 ==> r.value.0 < 16
    ensures r.Err? ==> r.error != BadLength
  {
    var j := SkipBlanks(s, pos);
    if j == |s| then Err(ScanEof)
    else if s[j] == '\n' then Err(ScanNewline)
    else
      var k := HexRun(s, j, width);
      if k == j then Err(ScanNoDigits) else Ok((HexValue(s[j..k]), k))
  }

  /** The three verbs after the literal '#'; whatever input is left after the third is ignored. */
  function ScanTriple(s: string, width: nat): (r: Result<Rgb, ColorError>)
    requires width == 1 || width == 2
    ensures r.Ok? && width == 1 ==> r.value.r < 16 && r.value.g < 16 && r.value.b < 16
    ensures r.Ok? ==> |s| > 0 && s[0] == '#'
    ensures r.Err? ==> r.error != BadLength
  {
    if |s| == 0 || s[0] != '#' then Err(ScanMismatch)
    else
      var red := ScanHex(s, 1, width);
      if red.Err? then Err(red.error)
      else
        var green := ScanHex(s, red.value.1, width);
        if green.Err? then Err(green.error)
        else
          var blue := ScanHex(s, green.value.1, width);
          if blue.Err? then Err(blue.error)
          else Ok(Rgb(red.value.0, green.value.0, blue.value.0))
  }

  /** `c.R *= 17` on a uint8. */
  function Times17(x: Byte): (y: Byte)
    ensures x < 16 ==> y == 17 * x
  {
    (x * 17) % 256
  }

  /** parseHexColor as the source writes it, with fmt's scanning rules as SkipBlanks, HexRun and
      ScanHex state them: the branch is chosen by the byte length; only other byte lengths give the
      length error; a short form's channels are its digits times 17. */
  function ParseHexColorAsWritten(s: string): (r: Result<Rgb, ColorError>)
    ensures r == Err(BadLength) <==> Utf8Length(s) != 4 && Utf8Length(s) != 7
    ensures r.Ok? ==> |s| > 0 && s[0] == '#'
    ensures r.Ok? && Utf8Length(s) == 4 ==> r.value.r % 17 == 0 && r.value.g % 17 == 0 && r.value.b % 17 == 0
  {
    if Utf8Length(s) == 7 then ScanTriple(s, 2)
    else if Utf8Length(s) == 4 then
      var scanned := ScanTriple(s, 1);
      if scanned.Err? then scanned
      else Ok(Rgb(Times17(scanned.value.r), Times17(scanned.value.g), Times17(scanned.value.b)))
    else Err(BadLength)
  }

  // ---------------------------------------------------------------------------------------------
  // parseHexColor as intended.

  /** `#` followed by exactly three or six hex digits, of either case. */
  predicate WellFormed(s: string)
  {
    (|s| == 4 || |s| == 7) && s[0] == '#' && forall i :: 1 <= i < |s| ==> IsHexDigit(s[i])
  }

  /** A well-formed colour is ASCII, so its byte length is its length. */
  lemma WellFormedLength(s: string)
    ensures WellFormed(s) ==> Utf8Length(s) == |s|
  {
    if WellFormed(s) {
      assert forall i :: 0 <= i < |s| ==> s[i] as int < 0x80 by {
        forall i | 0 <= i < |s| ensures s[i] as int < 0x80 {
          if i > 0 { assert IsHexDigit(s[i]); }
        }
      }
    }
  }

  /** The channel two hex digits spell. */
  function Pair(hi: char, lo: char): (v: Byte)
    requires IsHexDigit(hi) && IsHexDigit(lo)
  {
    16 * HexDigitValue(hi) + HexDigitValue(lo)
  }

  /** parseHexColor: the channels of `#rrggbb`, or of `#rgb` with each digit doubled; the length
      error, as in the source, for byte lengths other than 4 and 7. */
  function ParseHexColor(s: string): (r: Result<Rgb, ColorError>)
    ensures r.Ok? <==> WellFormed(s)
    ensures r.Err? ==> (r.error == BadLength <==> Utf8Length(s) != 4 && Utf8Length(s) != 7)
  {
    WellFormedLength(s);
    if Utf8Length(s) != 4 && Utf8Length(s) != 7 then Err(BadLength)
    else if !WellFormed(s) then Err(BadSyntax)
    else if |s| == 7 then Ok(Rgb(Pair(s[1], s[2]), Pair(s[3], s[4]), Pair(s[5], s[6])))
    else Ok(Rgb(17 * HexDigitValue(s[1]), 17 * HexDigitValue(s[2]), 17 * HexDigitValue(s[3])))
  }

  /** The `#rrggbb` spelling of a colour, lower case. */
  function FormatHexColor(c: Rgb): (s: string)
    ensures |s| == 7
  {
    ['#', HexDigit(c.r / 16), HexDigit(c.r % 16), HexDigit(c.g / 16), HexDigit(c.g % 16),
     HexDigit(c.b / 16), HexDigit(c.b % 16)]
  }

  /** The long form of a short colour string: every digit doubled. */
  function Expand(s: string): (t: string)
    requires |s| == 4
    ensures |t| == 7
  {
    [s[0], s[1], s[1], s[2], s[2], s[3], s[3]]
  }

  // ---------------------------------------------------------------------------------------------
  // parseProps: the colour validation after JSON decoding.

  /** `invalid `<field>`: <cause>`. */
  datatype PropsError = InvalidColor(field: string, cause: ColorError)

  /** The colour field that a properties check with colour parser `parse` rejects first, and its
      string, if any. */
  function FirstInvalidColor(st: SignStyle, parse: string -> Result<Rgb, ColorError>): (bad: Option<(string, string)>)
  {
    if parse(st.fontColor).Err? then Some(("fontColor", st.fontColor))
    else if parse(st.bgColor).Err? then Some(("bgColor", st.bgColor))
    else if parse(st.borderColor).Err? then Some(("borderColor", st.borderColor))
    else None
  }

  /** parseProps after decoding, over a colour parser: fontColor, then bgColor, then borderColor,
      each parsed into its channels. */
  function ParsePropsWith(pr: SignProps, parse: string -> Result<Rgb, ColorError>): (r: Result<SignProps, PropsError>)
    ensures r.Ok? <==> parse(pr.style.fontColor).Ok? && parse(pr.style.bgColor).Ok? && parse(pr.style.borderColor).Ok?
    ensures r.Err? ==> (FirstInvalidColor(pr.style, parse).Some?
                        && r.error.field == FirstInvalidColor(pr.style, parse).value.0
                        && r.error.cause == parse(FirstInvalidColor(pr.style, parse).value.1).error)
    ensures r.Ok? ==> (r.value.style.fontColorRgb == parse(pr.style.fontColor).value
                       && r.value.style.bgColorRgb == parse(pr.style.bgColor).value
                       && r.value.style.borderColorRgb == parse(pr.style.borderColor).value)
    ensures r.Ok? ==> (r.value.(style := pr.style) == pr
                       && r.value.style.(fontColorRgb := pr.style.fontColorRgb, bgColorRgb := pr.style.bgColorRgb,
                                         borderColorRgb := pr.style.borderColorRgb) == pr.style)
  {
    var font := parse(pr.style.fontColor);
    if font.Err? then Err(InvalidColor("fontColor", font.error))
    else
      var bg := parse(pr.style.bgColor);
      if bg.Err? then Err(InvalidColor("bgColor", bg.error))
      else
        var border := parse(pr.style.borderColor);
        if border.Err? then Err(InvalidColor("borderColor", border.error))
        else Ok(pr.(style := pr.style.(fontColorRgb := font.value, bgColorRgb := bg.value, borderColorRgb := border.value)))
  }

  /** parseProps on the strict colour parser: the properties are accepted exactly when all three
      colours are well-formed, and the first field that is not is reported. */
  function ParseProps(pr: SignProps): (r: Result<SignProps, PropsError>)
    ensures r.Ok? <==> WellFormed(pr.style.fontColor) && WellFormed(pr.style.bgColor) && WellFormed(pr.style.borderColor)
    ensures r.Err? ==> (r.error.field == "fontColor" <==> !WellFormed(pr.style.fontColor))
    ensures r.Err? ==> (r.error.field == "bgColor" <==> WellFormed(pr.style.fontColor) && !WellFormed(pr.style.bgColor))
    ensures r.Err? ==> (r.error.field == "borderColor" <==>
                        WellFormed(pr.style.fontColor) && WellFormed(pr.style.bgColor) && !WellFormed(pr.style.borderColor))
    ensures r.Err? ==> (FirstInvalidColor(pr.style, ParseHexColor).Some?
                        && r.error.field == FirstInvalidColor(pr.style, ParseHexColor).value.0
                        && r.error.cause == ParseHexColor(FirstInvalidColor(pr.style, ParseHexColor).value.1).error)
    ensures r.Ok? ==> (r.value.style.fontColorRgb == ParseHexColor(pr.style.fontColor).value
                       && r.value.style.bgColorRgb == ParseHexColor(pr.style.bgColor).value
                       && r.value.style.borderColorRgb == ParseHexColor(pr.style.borderColor).value)
    ensures r.Ok? ==> (r.value.(style := pr.style) == pr
                       && r.value.style.(fontColorRgb := pr.style.fontColorRgb, bgColorRgb := pr.style.bgColorRgb,
                                         borderColorRgb := pr.style.borderColorRgb) == pr.style)
  {
    ParsePropsWith(pr, ParseHexColor)
  }

  /** parseProps as the source writes it, on the Sscanf-based colour parser. */
  function ParsePropsAsWritten(pr: SignProps): (r: Result<SignProps, PropsError>)
    ensures r.Ok? <==> ParseHexColorAsWritten(pr.style.fontColor).Ok? && ParseHexColorAsWritten(pr.style.bgColor).Ok?
                       && ParseHexColorAsWritten(pr.style.borderColor).Ok?
  {
    ParsePropsWith(pr, ParseHexColorAsWritten)
  }

  // ---------------------------------------------------------------------------------------------
  // Properties.

  /** Two hex digits spell the value their pair denotes. */
  lemma HexValueOfPair(s: string, i: nat)
    requires i + 2 <= |s| && IsHexDigit(s[i]) && IsHexDigit(s[i + 1])
    ensures HexValue(s[i..i + 2]) == Pair(s[i], s[i + 1])
  {
    assert s[i..i + 2][..1] == [s[i]];
    assert [s[i]][..0] == [];
  }

  /** Red, spelled in full in lower case. */
  lemma LongRedExample()
    ensures ParseHexColor("#ff0000") == Ok(Rgb(255, 0, 0))
  {
    assert WellFormed("#ff0000");
  }

  /** Red, spelled in full in upper case. */
  lemma UpperRedExample()
    ensures ParseHexColor("#FF0000") == Ok(Rgb(255, 0, 0))
  {
    assert WellFormed("#FF0000");
  }

  /** Red, spelled short. */
  lemma ShortRedExample()
    ensures ParseHexColor("#f00") == Ok(Rgb(255, 0, 0))
  {
    assert WellFormed("#f00");
  }

  /** A five-character string is a length error for both parsers. */
  lemma BadLengthExample()
    ensures ParseHexColor("#ff00") == Err(BadLength)
    ensures ParseHexColorAsWritten("#ff00") == Err(BadLength)
  {
    assert Utf8Length("#ff00") == 5;
  }

  /** The switch counts bytes: "#12345é" has seven characters but eight bytes, so both parsers give
      the length error. */
  lemma NonAsciiLongLength()
    ensures ParseHexColorAsWritten("#12345\U{e9}") == Err(BadLength)
    ensures ParseHexColor("#12345\U{e9}") == Err(BadLength)
  {
    assert Utf8Length("#12345\U{e9}") == 8;
  }

  /** "#fé" has three characters but four bytes, so the source scans it as a short form and fails at
      the 'é', where the strict parser reports bad syntax. */
  lemma NonAsciiShortForm()
    ensures ParseHexColorAsWritten("#f\U{e9}") == Err(ScanNoDigits)
    ensures ParseHexColor("#f\U{e9}") == Err(BadSyntax)
  {
    var s := "#f\U{e9}";
    assert s[2] as int == 0xE9;
    assert Utf8Length(s) == 4;
    ScanOneDigit(s, 1, 1);
    assert SkipBlanks(s, 2) == 2;
    assert HexRun(s, 2, 1) == 2;
  }

  /** Formatting a colour and parsing it back gives the colour. */
  lemma {:induction false} FormatThenParse(c: Rgb)
    ensures ParseHexColor(FormatHexColor(c)) == Ok(c)
  {
    var s := FormatHexColor(c);
    assert WellFormed(s);
  }

  /** Parsing a long-form colour and formatting it back gives the string in lower case. */
  lemma {:induction false} ParseThenFormat(s: string)
    requires WellFormed(s) && |s| == 7
    ensures var t := FormatHexColor(ParseHexColor(s).value);
      t[0] == s[0] && forall i :: 1 <= i < 7 ==> t[i] == ToLower(s[i])
  {
    var c := ParseHexColor(s).value;
    DivModPair(s[1], s[2]);
    DivModPair(s[3], s[4]);
    DivModPair(s[5], s[6]);
    forall i | 1 <= i < 7
      ensures HexDigit(HexDigitValue(s[i])) == ToLower(s[i])
    {
      DigitRoundTrip(s[i]);
    }
  }

  /** A channel's two hex digits are its quotient and remainder by 16. */
  lemma DivModPair(hi: char, lo: char)
    requires IsHexDigit(hi) && IsHexDigit(lo)
    ensures Pair(hi, lo) / 16 == HexDigitValue(hi) && Pair(hi, lo) % 16 == HexDigitValue(lo)
  {
  }

  /** A hex digit's value, written back as a digit, is the digit in lower case. */
  lemma DigitRoundTrip(c: char)
    requires IsHexDigit(c)
    ensures HexDigit(HexDigitValue(c)) == ToLower(c)
  {
  }

  /** A short colour means its long form with every digit doubled, so every channel is a multiple
      of 17 within 0..255. */
  lemma {:induction false} ShortFormIsDoubledLongForm(s: string)
    requires |s| == 4
    ensures ParseHexColor(s).Ok? <==> ParseHexColor(Expand(s)).Ok?
    ensures ParseHexColor(s).Ok? ==> ParseHexColor(s) == ParseHexColor(Expand(s))
    ensures ParseHexColor(s).Ok? ==> var c := ParseHexColor(s).value;
      c.r % 17 == 0 && c.g % 17 == 0 && c.b % 17 == 0
  {
    var t := Expand(s);
    assert WellFormed(s) <==> WellFormed(t) by {
      if WellFormed(t) {
        assert forall i :: 1 <= i < 4 ==> s[i] == t[2 * i - 1] by {
          forall i | 1 <= i < 4 ensures s[i] == t[2 * i - 1] { }
        }
      }
    }
  }

  /** A digit read by one width-1 verb at `pos`, with nothing to skip: it ends right after it. */
  lemma ScanOneDigit(s: string, pos: nat, width: nat)
    requires pos + width <= |s| && 1 <= width <= 2
    requires forall i :: pos <= i < pos + width ==> IsHexDigit(s[i])
    ensures ScanHex(s, pos, width) == Ok((HexValue(s[pos..pos + width]), pos + width))
  {
    var k := HexRun(s, pos, width);
    assert k == pos + width;
  }

  /** A `%02x` verb over two hex digits scans the channel they spell. */
  lemma ScanPair(s: string, pos: nat)
    requires pos + 2 <= |s| && IsHexDigit(s[pos]) && IsHexDigit(s[pos + 1])
    ensures ScanHex(s, pos, 2) == Ok((Pair(s[pos], s[pos + 1]) as nat, pos + 2))
  {
    ScanOneDigit(s, pos, 2);
    HexValueOfPair(s, pos);
  }

  /** On a well-formed long form the source's parser and the strict one agree. */
  lemma LongFormAgrees(s: string)
    requires WellFormed(s) && |s| == 7
    ensures ParseHexColorAsWritten(s) == ParseHexColor(s)
  {
    assert IsHexDigit(s[1]) && IsHexDigit(s[2]);
    ScanPair(s, 1);
    assert IsHexDigit(s[3]) && IsHexDigit(s[4]);
    ScanPair(s, 3);
    assert IsHexDigit(s[5]) && IsHexDigit(s[6]);
    ScanPair(s, 5);
  }

  /** On a well-formed short form the source's parser and the strict one agree. */
  lemma ShortFormAgrees(s: string)
    requires WellFormed(s) && |s| == 4
    ensures ParseHexColorAsWritten(s) == ParseHexColor(s)
  {
    ScanOneDigit(s, 1, 1);
    ScanOneDigit(s, 2, 1);
    ScanOneDigit(s, 3, 1);
    assert s[1..2][..0] == [] && s[2..3][..0] == [] && s[3..4][..0] == [];
  }

  /** On every well-formed string the source's parser and the strict one agree. */
  lemma AsWrittenAgreesOnWellFormed(s: string)
    requires WellFormed(s)
    ensures ParseHexColorAsWritten(s) == ParseHexColor(s)
  {
    if |s| == 7 {
      LongFormAgrees(s);
    } else {
      ShortFormAgrees(s);
    }
  }

  /** A verb that succeeds has consumed at least its first non-blank character, a hex digit. */
  lemma ScanHexDigitAt(s: string, pos: nat, width: nat)
    requires pos <= |s| && width <= 2 && ScanHex(s, pos, width).Ok?
    ensures var j := SkipBlanks(s, pos); j < ScanHex(s, pos, width).value.1 && IsHexDigit(s[j])
    ensures width == 1 ==> ScanHex(s, pos, width).value.1 == SkipBlanks(s, pos) + 1
  {
  }

  /** For strings of four bytes, the source's `#%1x%1x%1x` branch, the source's parser is exactly the
      strict one: a blank or a non-ASCII character would leave a verb without its digit. */
  lemma {:induction false} AsWrittenShortFormIsStrict(s: string)
    requires Utf8Length(s) == 4
    ensures ParseHexColorAsWritten(s).Ok? <==> WellFormed(s)
    ensures WellFormed(s) ==> ParseHexColorAsWritten(s) == ParseHexColor(s)
  {
    if WellFormed(s) {
      AsWrittenAgreesOnWellFormed(s);
    } else if ParseHexColorAsWritten(s).Ok? {
      var red := ScanHex(s, 1, 1);
      ScanHexDigitAt(s, 1, 1);
      var green := ScanHex(s, red.value.1, 1);
      ScanHexDigitAt(s, red.value.1, 1);
      var blue := ScanHex(s, green.value.1, 1);
      ScanHexDigitAt(s, green.value.1, 1);
      assert false;
    }
  }

  /** The discrepancy: "#12345z" has a non-hex digit, yet the source's parser accepts it, reading
      the last verb's single digit and ignoring the 'z'; the strict parser rejects it. */
  lemma AsWrittenAcceptsTrailingGarbage()
    ensures ParseHexColorAsWritten("#12345z") == Ok(Rgb(0x12, 0x34, 0x5))
    ensures ParseHexColor("#12345z") == Err(BadSyntax)
  {
    var s := "#12345z";
    assert !IsHexDigit(s[6]);
    ScanPair(s, 1);
    ScanPair(s, 3);
    assert Pair(s[1], s[2]) == 0x12 && Pair(s[3], s[4]) == 0x34;
    LastVerbStopsAtZ(s);
  }

  /** On well-formed colours parseProps as written and on the strict parser agree. */
  lemma PropsAgreeOnWellFormed(pr: SignProps)
    requires WellFormed(pr.style.fontColor) && WellFormed(pr.style.bgColor) && WellFormed(pr.style.borderColor)
    ensures ParsePropsAsWritten(pr) == ParseProps(pr)
  {
    AsWrittenAgreesOnWellFormed(pr.style.fontColor);
    AsWrittenAgreesOnWellFormed(pr.style.bgColor);
    AsWrittenAgreesOnWellFormed(pr.style.borderColor);
  }

  /** The discrepancy carried into parseProps: a fontColor of "#12345z" passes the source's check,
      while the strict check rejects that field for its syntax. */
  lemma PropsAcceptTrailingGarbage(pr: SignProps)
    requires pr.style.fontColor == "#12345z" && WellFormed(pr.style.bgColor) && WellFormed(pr.style.borderColor)
    ensures ParsePropsAsWritten(pr).Ok? && ParsePropsAsWritten(pr).value.style.fontColorRgb == Rgb(0x12, 0x34, 0x5)
    ensures ParseProps(pr) == Err(InvalidColor("fontColor", BadSyntax))
  {
    AsWrittenAcceptsTrailingGarbage();
    AsWrittenAgreesOnWellFormed(pr.style.bgColor);
    AsWrittenAgreesOnWellFormed(pr.style.borderColor);
  }

  /** fmt skips a no-break space before a verb as white space: "#1\U{a0}234" has seven bytes, and
      the source's parser reads it as (0x01, 0x23, 0x04), while the strict parser rejects it. */
  lemma AsWrittenSkipsNoBreakSpace()
    ensures ParseHexColorAsWritten("#1\U{a0}234") == Ok(Rgb(0x01, 0x23, 0x04))
    ensures ParseHexColor("#1\U{a0}234") == Err(BadSyntax)
  {
    var s := "#1\U{a0}234";
    assert Utf8Length(s) == 7;
    assert !IsHexDigit(s[2]);
    NoBreakSpaceVerbs(s);
  }

  /** The three `%02x` verbs of "#1\U{a0}234": '1' stopping at the no-break space, then "23" after
      skipping it, then the final '4'. */
  lemma NoBreakSpaceVerbs(s: string)
    requires s == "#1\U{a0}234"
    ensures ScanHex(s, 1, 2) == Ok((1, 2))
    ensures ScanHex(s, 2, 2) == Ok((0x23, 5))
    ensures ScanHex(s, 5, 2) == Ok((4, 6))
  {
    assert s[2] as int == 0xA0 && IsBlank(s[2]) && !IsHexDigit(s[2]);
    assert SkipBlanks(s, 1) == 1 && HexRun(s, 2, 1) == 2 && HexRun(s, 1, 2) == 2;
    assert HexValue(s[1..2]) == 1 by { assert s[1..2] == "1" && "1"[..0] == ""; }
    assert SkipBlanks(s, 3) == 3 && SkipBlanks(s, 2) == 3;
    ScanPair(s, 3);
    assert Pair(s[3], s[4]) == 0x23;
    assert SkipBlanks(s, 5) == 5 && HexRun(s, 6, 1) == 6 && HexRun(s, 5, 2) == 6;
    assert HexValue(s[5..6]) == 4 by { assert s[5..6] == "4" && "4"[..0] == ""; }
  }

  /** The third `%02x` verb of "#12345z" reads the single digit '5' and stops at the 'z'. */
  lemma LastVerbStopsAtZ(s: string)
    requires s == "#12345z"
    ensures ScanHex(s, 5, 2) == Ok((5, 6))
  {
    assert SkipBlanks(s, 5) == 5;
    assert HexRun(s, 6, 1) == 6;
    assert HexRun(s, 5, 2) == 6;
    assert HexValue(s[5..6]) == 5 by { assert s[5..6] == "5" && "5"[..0] == ""; }
  }

}
