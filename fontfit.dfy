/** The font-fit search: shrink a font size one point at a time until the
    measured text, shifted by the given offsets, lies strictly inside the label.
    Two properties of `adjust_font_to_fit` are kept as the program has them:
    the fit test is strict, and only the first size tried is tested with the
    offsets, because the recursive step calls itself without them. */
module FontFit {
  import opened LabelTypes

  /** The smallest size the search will return on its own. */
  const Floor: int := 2

  /** `font_fits`: the text measured at `size`, moved right by `hoff` and down
      by `voff`, ends strictly before the label's right and bottom edges. Text
      that ends exactly on an edge does not fit, and non-negative offsets only
      make fitting harder: text that fits with them is smaller than the label. */
  predicate FontFits(measure: Measure, size: int, text: string, box: Size, hoff: int, voff: int): (fits: bool)
    ensures fits ==> measure(size, text).width + hoff != box.width && measure(size, text).height + voff != box.height
    ensures fits && hoff >= 0 && voff >= 0 ==>
      measure(size, text).width < box.width && measure(size, text).height < box.height
  {
    var textsize := measure(size, text);
    textsize.width + hoff < box.width && textsize.height + voff < box.height
  }

  /** `adjust_font_to_fit`. The result never exceeds the request and never
      drops below the floor (or the request, if that is already below it). It
      is the request exactly when the request fits with its offsets or is at
      most the floor. A smaller result is the floor or a size that fits with
      zero offsets, and every size strictly between the result and the request
      fails at zero offsets. */
  function AdjustFontToFit(measure: Measure, desired: int, text: string, box: Size, hoff: int, voff: int): (r: int)
    ensures r <= desired
    ensures desired <= Floor ==> r == desired
    ensures desired > Floor ==> r >= Floor
    ensures r == desired <==> desired <= Floor || FontFits(measure, desired, text, box, hoff, voff)
    ensures r < desired ==> r == Floor || FontFits(measure, r, text, box, 0, 0)
    ensures forall s :: r < s < desired ==> !FontFits(measure, s, text, box, 0, 0)
    decreases desired
  {
    if !FontFits(measure, desired, text, box, hoff, voff) && desired > Floor then
      AdjustFontToFit(measure, desired - 1, text, box, 0, 0)
    else
      desired
  }

  /** The search with the offsets kept at every step: the largest size from
      the request down to the floor that fits with the offsets, or the floor. */
  function FitWithOffsets(measure: Measure, desired: int, text: string, box: Size, hoff: int, voff: int): (r: int)
    ensures r <= desired
    ensures desired > Floor ==> r >= Floor
    ensures r == desired <==> desired <= Floor || FontFits(measure, desired, text, box, hoff, voff)
    ensures r < desired ==> r == Floor || FontFits(measure, r, text, box, hoff, voff)
    ensures forall s :: r < s <= desired ==> !FontFits(measure, s, text, box, hoff, voff)
    decreases desired
  {
    if !FontFits(measure, desired, text, box, hoff, voff) && desired > Floor then
      FitWithOffsets(measure, desired - 1, text, box, hoff, voff)
    else
      desired
  }

  /** With zero offsets the dropped offsets make no difference: the program's
      search and the search with the offsets kept agree. */
  lemma {:induction false} ZeroOffsetsAgree(measure: Measure, desired: int, text: string, box: Size)
    ensures AdjustFontToFit(measure, desired, text, box, 0, 0) == FitWithOffsets(measure, desired, text, box, 0, 0)
    decreases desired
  {
    if !FontFits(measure, desired, text, box, 0, 0) && desired > Floor {
      ZeroOffsetsAgree(measure, desired - 1, text, box);
    }
  }

  /** The two searches diverge once offsets are given: with text as tall and
      wide as its point size, a 10x10 label, a request of 10 and a horizontal
      offset of 5, `adjust_font_to_fit` returns 9, whose text plus offset (14)
      does not fit, while the search with the offsets kept goes down to 4. */
  lemma DroppedOffsetsWitness()
    ensures var m: Measure := (size: int, text: string) => Size(size, size);
      && AdjustFontToFit(m, 10, "A", Size(10, 10), 5, 0) == 9
      && !FontFits(m, 9, "A", Size(10, 10), 5, 0)
      && FitWithOffsets(m, 10, "A", Size(10, 10), 5, 0) == 4
  {
    var m: Measure := (size: int, text: string) => Size(size, size);
    assert FontFits(m, 9, "A", Size(10, 10), 0, 0);
    assert !FontFits(m, 5, "A", Size(10, 10), 5, 0);
    assert FontFits(m, 4, "A", Size(10, 10), 5, 0);
  }
}
