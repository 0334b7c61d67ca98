/** Multi-line text normalisation before measuring: every empty line becomes a
    single space, because the image library mis-measures text with empty lines. */
module EmptyLines {
  import opened PyStr

  const NewLine: char := '\n'

  /** The replacement of one line. */
  function NormaliseLine(line: string): string {
    if line == "" then " " else line
  }

  /** Line-wise normalisation: same number of lines, each empty line replaced by
      a single space and every other line kept. */
  function NormaliseLines(lines: seq<string>): (r: seq<string>)
    ensures |r| == |lines|
    ensures forall k :: 0 <= k < |lines| && lines[k] == "" ==> r[k] == " "
    ensures forall k :: 0 <= k < |lines| && lines[k] != "" ==> r[k] == lines[k]
  {
    if lines == [] then [] else [NormaliseLine(lines[0])] + NormaliseLines(lines[1..])
  }

  /** The normalised text: split on newlines, normalise, join again. Its lines
      are the normalised lines of the text. */
  function NormaliseText(text: string): (r: string)
    ensures Split(r, NewLine) == NormaliseLines(Split(text, NewLine))
  {
    var lines := NormaliseLines(Split(text, NewLine));
    assert forall k :: 0 <= k < |lines| ==> Free(lines[k], NewLine);
    SplitJoin(lines, NewLine);
    Join(lines, NewLine)
  }

  /** The loop in `create_label_im` that builds the list of lines. */
  method NormaliseEmptyLines(text: string) returns (r: string)
    ensures r == NormaliseText(text)
  {
    var parts := Split(text, NewLine);
    var lines: seq<string> := [];
    var i := 0;
    while i < |parts|
      invariant 0 <= i <= |parts|
      invariant |lines| == i
      invariant forall k :: 0 <= k < i ==> lines[k] == NormaliseLine(parts[k])
    {
      var line := parts[i];
      if line == "" {
        line := " ";
      }
      lines := lines + [line];
      i := i + 1;
    }
    assert lines == NormaliseLines(parts);
    r := Join(lines, NewLine);
  }

  /** Normalisation keeps the number of lines, keeps every non-empty line and
      leaves no empty line. */
  lemma NormalisationPreservesLines(text: string)
    ensures var before, after := Split(text, NewLine), Split(NormaliseText(text), NewLine);
      && |after| == |before|
      && (forall k :: 0 <= k < |before| && before[k] != "" ==> after[k] == before[k])
      && (forall k :: 0 <= k < |after| ==> after[k] != "")
  {
  }

  /** Normalising twice is normalising once. */
  lemma NormaliseIdempotent(text: string)
    ensures NormaliseText(NormaliseText(text)) == NormaliseText(text)
  {
    var lines := NormaliseLines(Split(text, NewLine));
    assert NormaliseLines(lines) == lines;
  }

  /** Text without empty lines is left exactly as it is. */
  lemma NoEmptyLineUnchanged(text: string)
    requires forall k :: 0 <= k < |Split(text, NewLine)| ==> Split(text, NewLine)[k] != ""
    ensures NormaliseText(text) == text
  {
    var parts := Split(text, NewLine);
    assert NormaliseLines(parts) == parts;
    JoinSplit(text, NewLine);
  }

  /** A blank line between two lines is measured as a single space. */
  lemma BlankLineBecomesSpace()
    ensures NormaliseText("A\n\nB") == "A\n \nB"
  {
    assert Split("A\n\nB", NewLine) == ["A", "", "B"] by {
      assert "A\n\nB" == "A" + [NewLine] + ("" + [NewLine] + "B");
      SplitAtSeparator("A", "" + [NewLine] + "B", NewLine);
      SplitAtSeparator("", "B", NewLine);
      SplitFree("B", NewLine);
    }
    assert NormaliseLines(["A", "", "B"]) == ["A", " ", "B"];
    assert Join([" ", "B"], NewLine) == " " + [NewLine] + "B";
    assert Join(["A", " ", "B"], NewLine) == "A" + [NewLine] + Join([" ", "B"], NewLine);
  }
}
