/** Shared data model of the label layout layer: failure-compatible wrappers,
    the Python exceptions the layer can raise, pixel geometry, colours and the
    request context that every rendering step reads. */
module LabelTypes {

  datatype Option<+T> = None | Some(value: T)

  datatype Result<+T, +E> = Ok(value: T) | Err(error: E)

  /** The exceptions the modelled code raises, by Python class. */
  datatype Error =
    | LookupError(msg: string)
    | AttributeError          // an attribute looked up on None
    | UnboundLocalError(name: string)

  /** A (width, height) pair in device pixels, as the image library reports it. */
  datatype Size = Size(width: int, height: int)

  /** An (x, y) drawing origin in device pixels. */
  datatype Point = Point(x: int, y: int)

  datatype Rgb = Rgb(r: int, g: int, b: int)

  const Red := Rgb(255, 0, 0)
  const Black := Rgb(0, 0, 0)

  /** The image library's multi-line text measurement: the bounding box of a text
      drawn with the chosen font at a given point size. It is uninterpreted; in
      particular nothing assumes that a smaller size gives a smaller box. */
  type Measure = (int, string) -> Size

  /** The numeric request parameters after conversion: font size, margin and
      threshold as parsed integers, and the four margins already converted from
      percentages of the font size into pixels. */
  datatype Numbers = Numbers(
    fontSize: int, margin: int, threshold: int,
    marginTop: int, marginBottom: int, marginLeft: int, marginRight: int)

  /** The per-request layout context built from the form parameters. */
  datatype Context = Context(
    text: Option<string>,
    fontSize: int,
    fontFamily: string,
    fontStyle: string,
    labelSize: string,
    kind: string,
    margin: int,
    threshold: int,
    align: string,
    orientation: string,
    marginTop: int,
    marginBottom: int,
    marginLeft: int,
    marginRight: int,
    grocycode: Option<string>,
    product: Option<string>,
    duedate: Option<string>,
    fillColor: Rgb,
    fontPath: string,
    width: int,
    height: int)
}
