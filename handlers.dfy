/** The two print endpoints, reduced to their decisions: the request is
    either refused with a JSON error, fails with the exception a step raised, or
    produces a label that is handed to the printer adapter (which then answers
    `{'success': True}`). */
module Handlers {
  import opened LabelTypes
  import opened LabelContext
  import opened Render

  const MissingText: string := "Please provide the text for the label"
  const MissingProduct: string := "Please provide the product for the label"

  datatype Job = TextJob(text: TextLabel) | GrocyJob(grocy: GrocyLabel)

  /** What an endpoint answers. `Refused` is the JSON object
      `{'success': False, 'error': message}`; `Submitted` means the job went to
      the printer adapter; `Raised` means the request ended in an exception. */
  datatype Reply = Refused(message: string) | Submitted(job: Job) | Raised(error: Error)

  /** `print_text`: a request whose context can be built but that carries no
      text is refused with the missing-text message and prints nothing. */
  method PrintText(d: map<string, string>, n: Numbers, fonts: FontTable, measure: Measure) returns (reply: Reply)
    ensures ContextFailure(d, fonts).Some? ==> reply == Raised(ContextFailure(d, fonts).value)
    ensures ContextFailure(d, fonts).None? && "text" !in d ==> reply == Refused(MissingText)
    ensures reply.Refused? <==> ContextFailure(d, fonts).None? && "text" !in d
    ensures reply.Refused? ==> reply.message == MissingText
    ensures reply.Submitted? <==>
      ContextFailure(d, fonts).None? && "text" in d && OrientationOf(d) in {"standard", "rotated"}
    ensures reply.Submitted? ==> reply.job.TextJob?
  {
    var context := GetLabelContext(d, n, fonts);
    if context.Err? {
      return Raised(context.error);
    }
    if context.value.text.None? {
      return Refused(MissingText);
    }
    var rendered := CreateLabelIm(context.value, measure);
    if rendered.Err? {
      return Raised(rendered.error);
    }
    reply := Submitted(TextJob(rendered.value));
  }

  /** `print_grocy`: the same check for the product name. */
  method PrintGrocy(d: map<string, string>, n: Numbers, fonts: FontTable,
                    wrap: string -> string, barcodeOf: string -> Size, measure: Measure)
    returns (reply: Reply)
    ensures ContextFailure(d, fonts).Some? ==> reply == Raised(ContextFailure(d, fonts).value)
    ensures ContextFailure(d, fonts).None? && "product" !in d ==> reply == Refused(MissingProduct)
    ensures reply.Refused? <==> ContextFailure(d, fonts).None? && "product" !in d
    ensures reply.Refused? ==> reply.message == MissingProduct
    ensures reply.Submitted? <==>
      && ContextFailure(d, fonts).None? && "product" in d && "grocycode" in d
      && OrientationOf(d) in {"standard", "rotated"}
    ensures reply.Submitted? ==> reply.job.GrocyJob?
  {
    var context := GetLabelContext(d, n, fonts);
    if context.Err? {
      return Raised(context.error);
    }
    if context.value.product.None? {
      return Refused(MissingProduct);
    }
    var rendered := CreateLabelGrocy(context.value, wrap, barcodeOf, measure);
    if rendered.Err? {
      return Raised(rendered.error);
    }
    reply := Submitted(GrocyJob(rendered.value));
  }
}
