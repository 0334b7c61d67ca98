# label_web layout layer, modelled in Dafny

label_web is a small web service that renders text, or a product label with a
DataMatrix barcode, into a bitmap and prints it on a label printer through
CUPS. This project models the integer and string logic under the web and
printer plumbing:

- the font-fit search that shrinks a font size until the measured text fits
  the label (`adjust_font_to_fit` / `font_fits`);
- the normalisation that replaces every empty line of a multi-line text by a
  single space before it is measured;
- the derivation of the request context (`get_label_context`): parsing of a
  `"Family (Style)"` font selection, the red/black fill colour, the font-file
  lookup and the label dimensions in the requested orientation;
- the placement arithmetic of plain text labels (`create_label_im`) and of
  product ("grocy") labels (`create_label_grocy`);
- the missing-field checks of the two print endpoints;
- the CUPS printer adapter's label table and its pure queries.

The image library's text measurement is the uninterpreted function parameter
`Measure(size, text) -> (width, height)`; nothing assumes it is monotone. The
text wrapper of product names and the barcode encoder are function parameters
too (`wrap`, `barcodeOf`).

Modules, one per file:

| file | module | models |
|---|---|---|
| types.dfy | LabelTypes | the data model: exceptions, sizes, points, colours, the request context |
| pystr.dfy | PyStr | the Python `str` built-ins the layer uses (`split`, `join`, `strip`, `rstrip`, `rpartition`, `in`) |
| cups.dfy | Cups | implementation_cups.py: label table and adapter queries |
| fontfit.dfy | FontFit | `font_fits`, `adjust_font_to_fit` |
| emptylines.dfy | EmptyLines | the empty-line loop of `create_label_im` |
| context.dfy | LabelContext | `get_label_context` and `get_font_path` |
| render.dfy | Render | `create_label_im`, `create_label_grocy` |
| handlers.dfy | Handlers | `print_text`, `print_grocy` |

Behaviours of the code that are kept as written, not corrected:

- The fit test is strict (`<`): text ending exactly on the label edge does not
  fit.
- `adjust_font_to_fit` passes the offsets only to the first size it tries; the
  recursive call drops them, so every smaller size is tested with zero offsets.
  `FontFit.DroppedOffsetsWitness` shows an input where the returned size does
  not fit with the offsets, and `FontFit.FitWithOffsets` is the search with the
  offsets kept, for comparison only.
- `create_label_im` compares the fitted size (an int) with the measured
  `(width, height)` tuple, which are never equal, so the font is always
  reloaded at the fitted size; the text origin is still computed from the
  text measured at the requested size.
- `create_label_grocy` swaps the canvas a second time under rotation, on top
  of the swap in `get_label_context`, so a product label's canvas is always
  landscape. It reloads the product font at the requested size when the fit
  changed it, so the fitted size is discarded, and the due date's fitted size
  is never used.
- Under rotation the code calls `datamatrix.transpose(Image.ROTATE_270)`
  (brother_ql_web.py:184) but discards the image it returns, so the barcode
  is pasted unrotated at (15, 22) in both orientations.
- An orientation other than `standard` or `rotated` leaves
  `horizontal_offset` unassigned in `get_label_offset` and in
  `create_label_grocy`; the model returns `UnboundLocalError` there.
- The first `get_label_offset` definition in implementation_cups.py is
  shadowed by the second and is not modelled.

## Model

| member | source | states |
|---|---|---|
| PyStr.TrimStart | brother_ql_web.py:65 | `lstrip()`: the result is a suffix of the input that does not start with whitespace, and everything dropped is whitespace |
| PyStr.TrimEnd | brother_ql_web.py:65 | `rstrip()`: the result is a prefix of the input that does not end with whitespace, and everything dropped is whitespace |
| PyStr.Strip | brother_ql_web.py:65 | `strip()`: neither end of the result is whitespace, it is no longer than the input, and text whose ends are not whitespace is returned unchanged (that the result is the input with only its surrounding whitespace removed is `PyStr.StripIsInfix`) |
| PyStr.StripIsInfix | brother_ql_web.py:65 | `strip()` removes only the surrounding whitespace: the result is a contiguous middle part of the input, and everything before and after it is whitespace |
| PyStr.RStripChar | brother_ql_web.py:66 | `rstrip(')')`: the result is a prefix that does not end with `)`, and every dropped character is `)` |
| PyStr.LastIndexOf | brother_ql_web.py:65-66 | the index found holds the character and no later index does; none is found only when the character is absent |
| PyStr.RPartition | brother_ql_web.py:65-66 | `rpartition('(')`: the three parts concatenate to the input, the tail holds no separator, and the separator part is empty (with an empty head) exactly when the separator is absent |
| PyStr.Contains | brother_ql_web.py:91 | `sub in s` holds exactly when `sub` occurs at some index of `s` |
| PyStr.Split | brother_ql_web.py:120 | `split('\n')` yields at least one piece and no piece contains the separator |
| PyStr.Join | brother_ql_web.py:123 | `'\n'.join(lines)`: no lines give the empty text, one line is the text, and otherwise the text starts with the first line followed by the separator |
| PyStr.JoinSplit | brother_ql_web.py:120-123 | joining the pieces of a split gives back the original text |
| PyStr.SplitJoin | brother_ql_web.py:120-123 | splitting the join of separator-free pieces gives back the pieces |
| Cups.GetLabelSizes | implementation_cups.py:7-20 | every listed label id has a printable area, every printable area is listed, and no id is listed twice |
| Cups.GetDefaultLabelSize | implementation_cups.py:19-20 | the default label size is one of the listed ids and has a printable area |
| Cups.GetLabelKind | implementation_cups.py:46-47 | the label kind is the label description itself |
| Cups.GetLabelDimensions | implementation_cups.py:49-55 | `2.25x1.25` gives (457, 254), `1.25x2.25` gives (254, 457), and every other id raises `LookupError("Unknown label_size")` |
| Cups.GetLabelWidthHeight | implementation_cups.py:57-60 | the canvas is the context's width and height |
| Cups.CanvasIgnoresText | implementation_cups.py:57-60 | the canvas does not depend on the measured text |
| Cups.GetLabelOffset | implementation_cups.py:74-84 | standard: y is the top margin and x is half the free width rounded down, never negative; rotated: x is the left margin and y is the sum of the two halves floored separately, i.e. twice y plus the floor remainders of the free height and of the margin difference equals their sum (so neither a single floor of the sum nor truncating division meets it); any other orientation raises `UnboundLocalError` |
| Cups.StandardOffsetCentres | implementation_cups.py:76-78 | text no wider than the canvas is centred: it ends inside the canvas and the right gap exceeds the left by at most one pixel |
| Cups.RotatedOffsetCentres | implementation_cups.py:79-82 | with equal top and bottom margins, text no taller than the canvas is centred vertically to within one pixel |
| FontFit.FontFits | brother_ql_web.py:142-146 | the text measured at the size, plus the offsets, ends strictly before the right and bottom edges; so text ending exactly on an edge does not fit, and text that fits with non-negative offsets is smaller than the label |
| FontFit.AdjustFontToFit | brother_ql_web.py:136-146 | the result is at most the request and at least min(request, 2); it is the request exactly when the request fits with its offsets or is at most 2; a smaller result is 2 or fits with zero offsets; every size strictly between result and request fails with zero offsets |
| FontFit.FitWithOffsets | brother_ql_web.py:136-140 | the search with the offsets kept at every step: at most the request, at least 2, the request exactly when the request fits with the offsets or is at most 2, fits with the offsets unless it is 2, and every larger size up to the request fails with the offsets |
| FontFit.ZeroOffsetsAgree | brother_ql_web.py:136-140 | with zero offsets the search equals the offset-keeping search |
| FontFit.DroppedOffsetsWitness | brother_ql_web.py:139 | for a concrete measurement, request and offset the search returns 9, which does not fit with the offset, while the offset-keeping search returns 4 |
| EmptyLines.NormaliseLines | brother_ql_web.py:119-122 | the same number of lines, each empty line becomes one space and every other line is kept |
| EmptyLines.NormaliseEmptyLines | brother_ql_web.py:119-123 | the loop builds exactly the normalised text |
| EmptyLines.NormaliseText | brother_ql_web.py:119-123 | splitting the normalised text on newlines gives the normalised lines of the input |
| EmptyLines.NormalisationPreservesLines | brother_ql_web.py:119-123 | normalisation keeps the number of lines and every non-empty line, and leaves no empty line |
| EmptyLines.NormaliseIdempotent | brother_ql_web.py:119-123 | normalising twice equals normalising once |
| EmptyLines.NoEmptyLineUnchanged | brother_ql_web.py:119-123 | a text without empty lines is left exactly as it is |
| EmptyLines.BlankLineBecomesSpace | brother_ql_web.py:117-123 | `"A\n\nB"` becomes `"A\n \nB"` |
| LabelContext.Param | brother_ql_web.py:68 | `d.get(key)` is present exactly when the key is, with its value |
| LabelContext.ParamOr | brother_ql_web.py:72 | `d.get(key, default)` is the value when present and the default otherwise |
| LabelContext.ParseFontFamily | brother_ql_web.py:65-66 | without `(` the family is empty and the style is the selection without trailing `)`; otherwise the family is the stripped text before the last `(` and the style the text after it without trailing `)` |
| LabelContext.FontFamilyRoundTrip | brother_ql_web.py:65-66 | `"Family (Style)"` built from a family without surrounding whitespace and a style without `(` or trailing `)` parses back to that family and style |
| LabelContext.FillColor | brother_ql_web.py:91 | the fill is (255, 0, 0) exactly when `red` occurs in the label size, and (0, 0, 0) otherwise |
| LabelContext.NoRedWithoutR | brother_ql_web.py:91 | a label size without the letter `r` prints black |
| LabelContext.CupsLabelsPrintBlack | brother_ql_web.py:91 | every label id the CUPS adapter offers prints black |
| LabelContext.GetFontPath | brother_ql_web.py:93-101 | the font file of a known family and style, and `LookupError` when either is unknown |
| LabelContext.ContextFailure | brother_ql_web.py:60-105 | which exception building the context raises: `AttributeError` without a font selection, then the unknown-font `LookupError`, then the unknown-label-size one; none exactly when font and label size are known |
| LabelContext.GetLabelContext | brother_ql_web.py:60-111 | the context fails exactly as `ContextFailure` says; otherwise it carries the parsed family and style, their font file, the request's parameters with their defaults, the fill colour of the label size, and dimensions that are a permutation of the label's, landscape in standard orientation and portrait when rotated |
| LabelContext.OrientDimensions | brother_ql_web.py:105-109 | the dimensions are a permutation of the label's, the width the longer side in standard orientation and the height the longer side when rotated |
| LabelContext.RotatedSwapsStandard | brother_ql_web.py:105-109 | the rotated dimensions of a label are its standard dimensions swapped |
| Render.CreateLabelIm | brother_ql_web.py:113-134 | a missing text raises `AttributeError` and an unknown orientation `UnboundLocalError`; otherwise the text is normalised, the canvas is the context's size, the font size is the fitted one (never above the request), and the origin is the adapter's offset for the text measured at the requested size |
| Render.CreateLabelGrocy | brother_ql_web.py:148-217 | a missing product or barcode payload raises `AttributeError` and an unknown orientation `UnboundLocalError`; otherwise the canvas is swapped under rotation, the barcode sits at (15, 22), the product at (bw+40, 12) or, rotated, at (5, 22+bw+40), drawn at the requested size whatever the fit says, and the due date product-height+10 further down (standard) or right (rotated); the product never overlaps the barcode and the due date follows the product |
| Render.ProductCanvasLandscape | brother_ql_web.py:169-174 | because of the second swap, a product label's canvas is landscape in both orientations |
| Handlers.PrintText | brother_ql_web.py:281-308 | a context failure ends the request with that exception; a request without text is answered with the missing-text error and nothing is printed; a job is submitted exactly when the context builds, the text is present and the orientation is known |
| Handlers.PrintGrocy | brother_ql_web.py:255-279 | a context failure ends the request with that exception; a request without product is answered with the missing-product error and nothing is printed; a job is submitted exactly when the context builds, product and barcode payload are present and the orientation is known |

## Left out

- HTTP routes, redirects, static files, the preview endpoints, PNG encoding and base64 responses: web plumbing with no layout logic.
- Font loading, canvas allocation and drawing (`ImageFont.truetype`, `Image.new`, `multiline_text`, `text`, `paste`): foreign image calls; only their measurements enter, through the `Measure` parameter, which is total (the image library's errors for sizes it rejects are not modelled).
- DataMatrix encoding and the temporary barcode file: the barcode's size is the `barcodeOf` parameter.
- `textwrap.TextWrapper(width=25)`: its wrapping is the `wrap` parameter.
- Conversion of the numeric form fields with `int()` and `float()`, including the `ValueError` for non-numeric input, and the margin derivation from percentages of the font size (float arithmetic): the converted values are the `Numbers` input.
- The due-date font size `int(font_size * 0.6)`: float arithmetic; the model records where the due date goes, not its font.
- `print_label`, the CUPS connection and `im.save`: spooler and file I/O; a submitted job stands for `{'success': True}`.
- The handlers' formatting of a `LookupError` through `e.msg` (an attribute the exception does not have): the model ends such a request with the context's own exception.
- The default-font branch of `get_font_path`: it runs only when family or style is `None`, which `rpartition` never yields.
- `main`, argument parsing, JSON configuration loading, font discovery and the random default-font choice: startup I/O and randomness.
