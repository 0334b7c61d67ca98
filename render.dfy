/** The layout decisions of the two label renderers: where text, barcode and
    due date are drawn, at which font size, and on which canvas. Drawing itself
    is the image library's business; a rendered label is described by these
    decisions. */
module Render {
  import opened LabelTypes
  import opened FontFit
  import opened EmptyLines
  import Cups

  /** A plain text label: the canvas, the normalised text, the font size it is
      drawn at and its origin. */
  datatype TextLabel = TextLabel(
    canvas: Size, text: string, fontSize: int, offset: Point, fill: Rgb, align: string)

  /** The due-date line of a product label: its text, origin, and the fitted size
      that is computed and then not used. */
  datatype DueDateLine = DueDateLine(text: string, at: Point, fittedSize: int)

  /** A product label: barcode, wrapped product name and optional due date. */
  datatype GrocyLabel = GrocyLabel(
    canvas: Size,
    barcodeAt: Point, barcode: Size,
    product: string, productAt: Point, productFontSize: int, productFittedSize: int,
    dueDate: Option<DueDateLine>,
    fill: Rgb)

  /** Fixed margins of the product label. */
  const GrocyMarginLeft: int := 15
  const GrocyMarginTop: int := 22
  /** Gap between the barcode and the product text, and the shift of the text
      towards the label edge. */
  const BarcodeGap: int := 40
  const TextShift: int := -10
  /** Gap between the product text and the due date. */
  const DueDateGap: int := 10

  /** `create_label_im`: normalise empty lines, measure the text at the
      requested size, take the canvas from the adapter, shrink the font until
      the text fits the canvas, and ask the adapter for the origin. The origin
      is computed from the text measured at the REQUESTED size, not at the
      fitted one. A missing text and an unknown orientation raise. */
  method CreateLabelIm(ctx: Context, measure: Measure) returns (r: Result<TextLabel, Error>)
    ensures ctx.text.None? ==> r == Err(AttributeError)
    ensures ctx.text.Some? ==>
      (r.Err? <==> ctx.orientation != "standard" && ctx.orientation != "rotated")
    ensures ctx.text.Some? && r.Err? ==> r.error == UnboundLocalError("horizontal_offset")
    ensures r.Ok? ==>
      var lab := r.value;
      && lab.text == NormaliseText(ctx.text.value)
      && lab.canvas == Size(ctx.width, ctx.height)
      && lab.fontSize == AdjustFontToFit(measure, ctx.fontSize, lab.text, lab.canvas, 0, 0)
      && lab.fontSize <= ctx.fontSize
      && Cups.GetLabelOffset(ctx.width, ctx.height, measure(ctx.fontSize, lab.text), ctx) == Ok(lab.offset)
      && lab.fill == ctx.fillColor && lab.align == ctx.align
  {
    if ctx.text.None? {
      return Err(AttributeError);
    }
    var text := NormaliseEmptyLines(ctx.text.value);
    var textsize := measure(ctx.fontSize, text);
    var canvas := Cups.GetLabelWidthHeight(textsize, ctx);
    var fontSize := ctx.fontSize;
    var adjusted := AdjustFontToFit(measure, ctx.fontSize, text, canvas, 0, 0);
    // `create_label_im` compares the fitted size with the measured (width, height)
    // pair, which is never equal to it, so the font is always reloaded.
    fontSize := adjusted;
    var offset := Cups.GetLabelOffset(canvas.width, canvas.height, textsize, ctx);
    if offset.Err? {
      return Err(offset.error);
    }
    r := Ok(TextLabel(canvas, text, fontSize, offset.value, ctx.fillColor, ctx.align));
  }

  /** `create_label_grocy`: the product name (already wrapped) and the barcode
      measured by `barcodeOf` are placed with fixed margins. The barcode goes at
      (15, 22). The product text goes 40 past the barcode's width along one
      axis and 10 back along the other; the due date follows the product text
      by its measured height plus 10. The canvas is swapped once more under
      rotation, the fitted product size is thrown away (the product is drawn at
      the requested size) and the due date's fitted size is never used. */
  method CreateLabelGrocy(ctx: Context, wrap: string -> string, barcodeOf: string -> Size, measure: Measure)
    returns (r: Result<GrocyLabel, Error>)
    ensures ctx.product.None? || ctx.grocycode.None? ==> r == Err(AttributeError)
    ensures ctx.product.Some? && ctx.grocycode.Some? ==>
      (r.Err? <==> ctx.orientation != "standard" && ctx.orientation != "rotated")
    ensures ctx.product.Some? && ctx.grocycode.Some? && r.Err? ==> r.error == UnboundLocalError("horizontal_offset")
    ensures r.Ok? ==>
      var lab, bw := r.value, barcodeOf(ctx.grocycode.value).width;
      var rotated := ctx.orientation == "rotated";
      && lab.canvas == (if rotated then Size(ctx.height, ctx.width) else Size(ctx.width, ctx.height))
      && lab.barcodeAt == Point(15, 22) && lab.barcode == barcodeOf(ctx.grocycode.value)
      && lab.product == wrap(ctx.product.value)
      && lab.productAt == (if rotated then Point(5, 22 + bw + 40) else Point(bw + 40, 12))
      && lab.productFontSize == ctx.fontSize
      && lab.productFittedSize == AdjustFontToFit(measure, ctx.fontSize, lab.product, lab.canvas, lab.productAt.x, lab.productAt.y)
      && lab.fill == ctx.fillColor
    ensures r.Ok? ==> (r.value.dueDate.Some? <==> ctx.duedate.Some?)
    ensures r.Ok? && ctx.duedate.Some? ==>
      var lab, due := r.value, r.value.dueDate.value;
      var gap := measure(ctx.fontSize, lab.product).height + 10;
      && due.text == ctx.duedate.value
      && due.at == (if ctx.orientation == "rotated" then Point(lab.productAt.x + gap, lab.productAt.y)
                    else Point(lab.productAt.x, lab.productAt.y + gap))
      && due.fittedSize == AdjustFontToFit(measure, ctx.fontSize, due.text, lab.canvas, due.at.x, due.at.y)
    // The product text never overlaps the barcode: it starts right of the
    // barcode in standard orientation and, for a square barcode (the only shape
    // the encoder is asked for), below it when rotated; a due date starts
    // after the product text.
    ensures r.Ok? && ctx.orientation == "standard" && r.value.barcode.width >= 0 ==>
      r.value.productAt.x > r.value.barcodeAt.x + r.value.barcode.width
    ensures r.Ok? && ctx.orientation == "rotated" && r.value.barcode.width == r.value.barcode.height ==>
      r.value.productAt.y > r.value.barcodeAt.y + r.value.barcode.height
    ensures r.Ok? && r.value.dueDate.Some? && measure(ctx.fontSize, r.value.product).height >= 0 ==>
      var productHeight := measure(ctx.fontSize, r.value.product).height;
      if ctx.orientation == "rotated" then r.value.dueDate.value.at.x > r.value.productAt.x + productHeight
      else r.value.dueDate.value.at.y > r.value.productAt.y + productHeight
  {
    if ctx.product.None? {
      return Err(AttributeError);
    }
    var product := wrap(ctx.product.value);
    if ctx.grocycode.None? {
      return Err(AttributeError);
    }
    var encoded := barcodeOf(ctx.grocycode.value);
    var productFontSize := ctx.fontSize;
    // `create_label_grocy` hands the adapter the font object here; the adapter ignores
    // its first argument, so the measured text stands in for it.
    var canvas := Cups.GetLabelWidthHeight(measure(productFontSize, product), ctx);
    var width, height := canvas.width, canvas.height;
    if ctx.orientation == "rotated" {
      var tw := width;
      width := height;
      height := tw;
    }
    var verticalOffset, horizontalOffset;
    if ctx.orientation == "standard" {
      verticalOffset := GrocyMarginTop;
      horizontalOffset := GrocyMarginLeft;
    } else if ctx.orientation == "rotated" {
      verticalOffset := GrocyMarginTop;
      horizontalOffset := GrocyMarginLeft;
    } else {
      return Err(UnboundLocalError("horizontal_offset"));
    }
    var barcodeAt := Point(horizontalOffset, verticalOffset);

    if ctx.orientation == "standard" {
      verticalOffset := verticalOffset + TextShift;
      horizontalOffset := encoded.width + BarcodeGap;
    } else {
      verticalOffset := verticalOffset + encoded.width + BarcodeGap;
      horizontalOffset := horizontalOffset + TextShift;
    }
    var productAt := Point(horizontalOffset, verticalOffset);
    var fitted := AdjustFontToFit(measure, ctx.fontSize, product, Size(width, height), horizontalOffset, verticalOffset);
    if ctx.fontSize != fitted {
      productFontSize := ctx.fontSize;
    }

    var dueDate := None;
    if ctx.duedate.Some? {
      var additionalOffset := measure(productFontSize, product).height + DueDateGap;
      if ctx.orientation == "standard" {
        verticalOffset := verticalOffset + additionalOffset;
      } else {
        horizontalOffset := horizontalOffset + additionalOffset;
      }
      var dueFitted := AdjustFontToFit(measure, ctx.fontSize, ctx.duedate.value, Size(width, height), horizontalOffset, verticalOffset);
      dueDate := Some(DueDateLine(ctx.duedate.value, Point(horizontalOffset, verticalOffset), dueFitted));
    }
    r := Ok(GrocyLabel(Size(width, height), barcodeAt, encoded, product, productAt,
                       productFontSize, fitted, dueDate, ctx.fillColor));
  }

  /** The canvas of a product label is always landscape: the context already
      swapped a rotated label's dimensions, and the product renderer swaps them
      back. */
  lemma ProductCanvasLandscape(ctx: Context)
    requires ctx.orientation == "rotated" ==> ctx.height >= ctx.width
    requires ctx.orientation != "rotated" ==> ctx.width >= ctx.height
    ensures var canvas := if ctx.orientation == "rotated" then Size(ctx.height, ctx.width) else Size(ctx.width, ctx.height);
      canvas.width >= canvas.height
  {
  }
}
