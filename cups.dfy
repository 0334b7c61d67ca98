/** The CUPS printer adapter: the table of loaded label sizes and the pure
    queries the layout layer asks of the adapter (label ids, dimensions, canvas
    size and text origin). Submitting a job to the spooler is not modelled. */
module Cups {
  import opened LabelTypes

  /** Label ids with their human-readable descriptions, in display order. */
  const LabelSizes: seq<(string, string)> := [
    ("2.25x1.25", "2.25\" by 1.25\""),
    ("1.25x2.25", "1.25\" x 2.25\"")
  ]

  /** Printable area of each label id, in printer dots. */
  const LabelPrintableArea: map<string, Size> := map[
    "2.25x1.25" := Size(457, 254),
    "1.25x2.25" := Size(254, 457)
  ]

  const DefaultSize: string := "2.25x1.25"

  const UnknownLabelSize: string := "Unknown label_size"

  /** The label ids, in the order the adapter lists them. */
  function Ids(sizes: seq<(string, string)>): (r: seq<string>)
    ensures |r| == |sizes|
    ensures forall k :: 0 <= k < |r| ==> r[k] == sizes[k].0
  {
    if |sizes| == 0 then [] else [sizes[0].0] + Ids(sizes[1..])
  }

  /** `get_label_sizes`: every listed id has a printable area and every
      printable area is listed, each exactly once. */
  function GetLabelSizes(): (r: seq<(string, string)>)
    ensures forall k :: 0 <= k < |r| ==> r[k].0 in LabelPrintableArea
    ensures forall id :: id in LabelPrintableArea ==> id in Ids(r)
    ensures forall j, k :: 0 <= j < k < |r| ==> r[j].0 != r[k].0
  {
    assert Ids(LabelSizes) == ["2.25x1.25", "1.25x2.25"];
    LabelSizes
  }

  /** `get_default_label_size`: the default is one of the listed ids. */
  function GetDefaultLabelSize(): (r: string)
    ensures r in LabelPrintableArea
    ensures r in Ids(GetLabelSizes())
  {
    assert Ids(LabelSizes) == ["2.25x1.25", "1.25x2.25"];
    DefaultSize
  }

  /** `get_label_kind`: the adapter has no notion of label kind, so the label
      description stands for itself. */
  function GetLabelKind(description: string): (r: string)
    ensures r == description
  {
    description
  }

  /** `get_label_dimensions`: the printable area of a known label id, and a
      `LookupError` for any other. */
  function GetLabelDimensions(labelSize: string): (r: Result<Size, Error>)
    ensures r.Ok? <==> labelSize == "2.25x1.25" || labelSize == "1.25x2.25"
    ensures labelSize == "2.25x1.25" ==> r == Ok(Size(457, 254))
    ensures labelSize == "1.25x2.25" ==> r == Ok(Size(254, 457))
    ensures r.Err? ==> r.error == LookupError(UnknownLabelSize)
  {
    if labelSize in LabelPrintableArea then Ok(LabelPrintableArea[labelSize])
    else Err(LookupError(UnknownLabelSize))
  }

  /** `get_label_width_height`: the canvas is the context's label size; the
      measured text does not enlarge or shrink it. */
  function GetLabelWidthHeight(textsize: Size, ctx: Context): (r: Size)
    ensures r.width == ctx.width && r.height == ctx.height
  {
    Size(ctx.width, ctx.height)
  }

  /** The canvas does not depend on the measured text. */
  lemma CanvasIgnoresText(t1: Size, t2: Size, ctx: Context)
    ensures GetLabelWidthHeight(t1, ctx) == GetLabelWidthHeight(t2, ctx)
  {
  }

  /** `get_label_offset` (the second definition, which shadows the first): the
      text origin. In standard orientation the text is centred horizontally
      (never left of the edge) and sits at the top margin; rotated, it sits at
      the left margin and is centred vertically, corrected by half the
      difference of the top and bottom margins, each half floored on its own.
      Halving is Python's floor division, which for the divisor 2 agrees with
      Dafny's `/`, and so does the remainder `%` that pins it down. Any other
      orientation leaves `horizontal_offset` unassigned. */
  function GetLabelOffset(width: int, height: int, textsize: Size, ctx: Context): (r: Result<Point, Error>)
    ensures r.Err? <==> ctx.orientation != "standard" && ctx.orientation != "rotated"
    ensures r.Err? ==> r.error == UnboundLocalError("horizontal_offset")
    ensures ctx.orientation == "standard" ==>
      && r.value.y == ctx.marginTop
      && r.value.x >= 0
      && (r.value.x > 0 ==> 2 * r.value.x <= width - textsize.width < 2 * r.value.x + 2)
      && (width - textsize.width >= 2 ==> r.value.x > 0)
    ensures ctx.orientation == "rotated" ==>
      && r.value.x == ctx.marginLeft
      && 2 * r.value.y + (height - textsize.height) % 2 + (ctx.marginTop - ctx.marginBottom) % 2
           == (height - textsize.height) + (ctx.marginTop - ctx.marginBottom)
  {
    if ctx.orientation == "standard" then
      Ok(Point(Max((width - textsize.width) / 2, 0), ctx.marginTop))
    else if ctx.orientation == "rotated" then
      var vertical := (height - textsize.height) / 2 + (ctx.marginTop - ctx.marginBottom) / 2;
      Ok(Point(ctx.marginLeft, vertical))
    else
      Err(UnboundLocalError("horizontal_offset"))
  }

  function Max(a: int, b: int): int {
    if a >= b then a else b
  }

  /** Standard orientation centres text that fits: the space left of it equals
      the space right of it, or is one pixel less. */
  lemma {:induction false} StandardOffsetCentres(width: int, height: int, textsize: Size, ctx: Context)
    requires ctx.orientation == "standard"
    requires textsize.width <= width
    ensures var x := GetLabelOffset(width, height, textsize, ctx).value.x;
      && 0 <= x
      && 2 * x + textsize.width <= width
      && width - (x + textsize.width) - x <= 1
  {
    var x := GetLabelOffset(width, height, textsize, ctx).value.x;
    if x == 0 {
      assert width - textsize.width < 2;
    }
  }

  /** Rotated orientation with equal top and bottom margins centres text that
      fits vertically, to within one pixel. */
  lemma {:induction false} RotatedOffsetCentres(width: int, height: int, textsize: Size, ctx: Context)
    requires ctx.orientation == "rotated"
    requires ctx.marginTop == ctx.marginBottom
    requires textsize.height <= height
    ensures var y := GetLabelOffset(width, height, textsize, ctx).value.y;
      && 0 <= y
      && 2 * y + textsize.height <= height
      && height - (y + textsize.height) - y <= 1
  {
  }
}
