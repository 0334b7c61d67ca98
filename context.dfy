/** Derivation of the per-request layout context from the decoded form
    parameters: the font family and style, the fill colour, the font file and
    the label dimensions in the requested orientation. */
module LabelContext {
  import opened LabelTypes
  import opened PyStr
  import Cups

  /** The message of the `LookupError` for an unknown font (spelled as the
      service spells it). */
  const FontNotFound: string := "Couln't find the font & style"

  /** Font family name -> style name -> font file. */
  type FontTable = map<string, map<string, string>>

  datatype FontName = FontName(family: string, style: string)

  /** `d.get(key)`. */
  function Param(d: map<string, string>, key: string): (r: Option<string>)
    ensures r.Some? <==> key in d
    ensures r.Some? ==> r.value == d[key]
  {
    if key in d then Some(d[key]) else None
  }

  /** `d.get(key, default)`. */
  function ParamOr(d: map<string, string>, key: string, default: string): (r: string)
    ensures key in d ==> r == d[key]
    ensures key !in d ==> r == default
  {
    if key in d then d[key] else default
  }

  /** The requested label size, the adapter's default when none is given. */
  function LabelSizeOf(d: map<string, string>): string {
    ParamOr(d, "label_size", Cups.GetDefaultLabelSize())
  }

  /** The requested orientation, standard when none is given. */
  function OrientationOf(d: map<string, string>): string {
    ParamOr(d, "orientation", "standard")
  }

  /** Splits a `"Family (Style)"` selection at its last `(`: the family is the
      text before it with surrounding whitespace stripped, the style the text
      after it with trailing `)` removed. Without any `(` the family is empty
      and the style is the whole selection minus trailing `)`. */
  function ParseFontFamily(selection: string): (r: FontName)
    ensures LastIndexOf(selection, '(').None? ==>
      r.family == "" && r.style == RStripChar(selection, ')')
    ensures LastIndexOf(selection, '(').Some? ==>
      var i := LastIndexOf(selection, '(').value;
      r.family == Strip(selection[..i]) && r.style == RStripChar(selection[i + 1..], ')')
  {
    var parts := RPartition(selection, '(');
    FontName(Strip(parts.0), RStripChar(parts.2, ')'))
  }

  /** Where the last separator is, `rpartition` splits. */
  lemma LastOccurrence(a: string, b: string, c: char)
    requires Free(b, c)
    ensures RPartition(a + [c] + b, c) == (a, [c], b)
  {
    var s := a + [c] + b;
    assert s[|a|] == c;
    assert forall k :: |a| < k < |s| ==> s[k] == b[k - |a| - 1];
    assert LastIndexOf(s, c) == Some(|a|);
    assert s[..|a|] == a && s[|a| + 1..] == b;
  }

  /** A family without surrounding whitespace followed by ` (`, a style and `)`
      is parsed back into that family and style. */
  lemma FontFamilyRoundTrip(family: string, style: string)
    requires family == [] || (!IsSpace(family[0]) && !IsSpace(family[|family| - 1]))
    requires Free(style, '(')
    requires style == [] || style[|style| - 1] != ')'
    ensures ParseFontFamily(family + " (" + style + ")") == FontName(family, style)
  {
    assert family + " (" + style + ")" == (family + " ") + ['('] + (style + ")");
    LastOccurrence(family + " ", style + ")", '(');
    StripPadded(family);
    StripClosed(style);
  }

  /** The space before `(` is stripped from a family that has no surrounding
      whitespace of its own. */
  lemma StripPadded(family: string)
    requires family == [] || (!IsSpace(family[0]) && !IsSpace(family[|family| - 1]))
    ensures Strip(family + " ") == family
  {
    if family == [] {
      assert TrimStart(" ") == "";
    } else {
      assert TrimStart(family + " ") == family + " ";
      assert (family + " ")[..|family|] == family;
      assert TrimEnd(family + " ") == TrimEnd(family);
    }
  }

  /** The closing `)` is removed from a style that does not end in one. */
  lemma StripClosed(style: string)
    requires style == [] || style[|style| - 1] != ')'
    ensures RStripChar(style + ")", ')') == style
  {
    assert (style + ")")[..|style|] == style;
  }

  /** The fill colour: red exactly when the label size names red media, black
      otherwise. */
  function FillColor(labelSize: string): (r: Rgb)
    ensures r == Red || r == Black
    ensures r == Red <==> exists i: nat :: OccursAt(labelSize, "red", i)
  {
    if Contains(labelSize, "red") then Red else Black
  }

  /** A label size without the letter `r` prints black. */
  lemma NoRedWithoutR(labelSize: string)
    requires forall k :: 0 <= k < |labelSize| ==> labelSize[k] != 'r'
    ensures FillColor(labelSize) == Black
  {
    forall i: nat ensures !OccursAt(labelSize, "red", i) {
      if i + 3 <= |labelSize| {
        assert labelSize[i..i + 3][0] == labelSize[i];
      }
    }
  }

  /** Every label the CUPS adapter offers prints black. */
  lemma CupsLabelsPrintBlack(id: string)
    requires id in Cups.LabelPrintableArea
    ensures FillColor(id) == Black
  {
    NoRedWithoutR(id);
  }

  /** `get_font_path`: the font file of a family and style, and a `LookupError`
      when either is unknown. */
  function GetFontPath(fonts: FontTable, family: string, style: string): (r: Result<string, Error>)
    ensures r.Ok? <==> family in fonts && style in fonts[family]
    ensures r.Ok? ==> r.value == fonts[family][style]
    ensures r.Err? ==> r.error == LookupError(FontNotFound)
  {
    if family in fonts && style in fonts[family] then Ok(fonts[family][style])
    else Err(LookupError(FontNotFound))
  }

  /** The exception `get_label_context` raises, if any: an `AttributeError`
      when no font was selected, then a `LookupError` for an unknown font, then
      one for an unknown label size. */
  function ContextFailure(d: map<string, string>, fonts: FontTable): (r: Option<Error>)
    ensures "font_family" !in d ==> r == Some(AttributeError)
    ensures "font_family" in d ==>
      var name := ParseFontFamily(d["font_family"]);
      && (r.None? <==> GetFontPath(fonts, name.family, name.style).Ok? && LabelSizeOf(d) in Cups.LabelPrintableArea)
      && (GetFontPath(fonts, name.family, name.style).Err? ==> r == Some(LookupError(FontNotFound)))
      && (GetFontPath(fonts, name.family, name.style).Ok? && LabelSizeOf(d) !in Cups.LabelPrintableArea ==>
            r == Some(LookupError(Cups.UnknownLabelSize)))
  {
    if "font_family" !in d then Some(AttributeError)
    else
      var name := ParseFontFamily(d["font_family"]);
      match GetFontPath(fonts, name.family, name.style)
      case Err(e) => Some(e)
      case Ok(_) =>
        match Cups.GetLabelDimensions(LabelSizeOf(d))
        case Err(e) => Some(e)
        case Ok(_) => None
  }

  /** `get_label_context`: builds the context from the form parameters and the
      converted numbers, then overwrites the fill colour, the font file and
      the dimensions. The label's long side becomes the width, and a rotated
      label swaps the two. */
  method GetLabelContext(d: map<string, string>, n: Numbers, fonts: FontTable) returns (r: Result<Context, Error>)
    ensures r.Err? <==> ContextFailure(d, fonts).Some?
    ensures r.Err? ==> r.error == ContextFailure(d, fonts).value
    ensures r.Ok? ==>
      var c, name := r.value, ParseFontFamily(d["font_family"]);
      && c.fontFamily == name.family && c.fontStyle == name.style
      && c.fontPath == fonts[name.family][name.style]
      && c.labelSize == LabelSizeOf(d) && c.kind == c.labelSize
      && c.orientation == OrientationOf(d) && c.align == ParamOr(d, "align", "center")
      && c.text == Param(d, "text") && c.product == Param(d, "product")
      && c.grocycode == Param(d, "grocycode")
      && c.duedate == (if "due_date" in d then Some(d["due_date"]) else Param(d, "duedate"))
      && c.fontSize == n.fontSize && c.margin == n.margin && c.threshold == n.threshold
      && c.marginTop == n.marginTop && c.marginBottom == n.marginBottom
      && c.marginLeft == n.marginLeft && c.marginRight == n.marginRight
      && c.fillColor == FillColor(c.labelSize)
      && multiset{c.width, c.height} == multiset{Cups.LabelPrintableArea[c.labelSize].width, Cups.LabelPrintableArea[c.labelSize].height}
      && (c.orientation == "rotated" ==> c.height >= c.width)
      && (c.orientation != "rotated" ==> c.width >= c.height)
  {
    if "font_family" !in d {
      return Err(AttributeError);
    }
    var name := ParseFontFamily(d["font_family"]);
    var labelSize := LabelSizeOf(d);
    var duedate := if "due_date" in d then Some(d["due_date"]) else Param(d, "duedate");
    var context := Context(
      Param(d, "text"), n.fontSize, name.family, name.style,
      labelSize, Cups.GetLabelKind(labelSize), n.margin, n.threshold,
      ParamOr(d, "align", "center"), OrientationOf(d),
      0, 0, 0, 0,
      Param(d, "grocycode"), Param(d, "product"), duedate,
      Black, "", 0, 0);
    context := context.(marginTop := n.marginTop, marginBottom := n.marginBottom,
                        marginLeft := n.marginLeft, marginRight := n.marginRight);
    context := context.(fillColor := FillColor(context.labelSize));
    var fontPath := GetFontPath(fonts, context.fontFamily, context.fontStyle);
    if fontPath.Err? {
      return Err(fontPath.error);
    }
    context := context.(fontPath := fontPath.value);
    var dims := Cups.GetLabelDimensions(context.labelSize);
    if dims.Err? {
      return Err(dims.error);
    }
    var width, height := OrientDimensions(dims.value, context.orientation);
    context := context.(width := width, height := height);
    r := Ok(context);
  }

  /** The label's dimensions with the long side as the width, swapped when the
      orientation is `rotated`. */
  method OrientDimensions(dims: Size, orientation: string) returns (width: int, height: int)
    ensures multiset{width, height} == multiset{dims.width, dims.height}
    ensures orientation == "rotated" ==> height >= width
    ensures orientation != "rotated" ==> width >= height
  {
    width, height := dims.width, dims.height;
    if height > width {
      width, height := height, width;
    }
    if orientation == "rotated" {
      height, width := width, height;
    }
  }

  /** The dimensions a context may carry are determined by the label and the
      orientation: the rotated ones are the standard ones swapped. */
  lemma RotatedSwapsStandard(dims: Size, standard: Size, rotated: Size)
    requires multiset{standard.width, standard.height} == multiset{dims.width, dims.height}
    requires multiset{rotated.width, rotated.height} == multiset{dims.width, dims.height}
    requires standard.width >= standard.height
    requires rotated.height >= rotated.width
    ensures rotated == Size(standard.height, standard.width)
  {
  }
}
