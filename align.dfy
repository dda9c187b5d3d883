/**
  The aligner of src/lib.rs: `Align::align_text` on a block of lines, which
  pads every line with spaces so that it sits at the left, the centre or the
  right of a common width, after optionally trimming it.
 */
module Align {
  import opened Text

  /** Where to align the lines. */
  datatype Where = Left | Center | Right

  /** Which side a line leans to when it cannot be centred exactly. */
  datatype Bias = Left | Right

  /** The errors `align_text` returns. */
  datatype Error = EmptyVector | InsufficientWidth | UnknownError(reason: string)

  datatype Option<T> = None | Some(value: T)

  datatype Result<T> = Ok(value: T) | Err(error: Error)

  /** `From<Bias> for usize`: the unit added to the centring gap before halving it. */
  function BiasOffset(bias: Bias): (offset: nat)
    ensures offset <= 1
    ensures offset == 1 <==> bias == Bias.Right
  {
    match bias
    case Left => 0
    case Right => 1
  }

  /**
    The number of spaces put before a line that leaves `space` columns free;
    the remaining `space - before` go after it.
   */
  function Before(align: Where, space: nat, bias: Bias): (before: nat)
    ensures before <= space
    ensures align == Where.Left ==> before == 0
    ensures align == Where.Right ==> before == space
    ensures align == Where.Center && space % 2 == 0 ==> before == space - before
    ensures align == Where.Center && space % 2 == 1 ==>
              before == if bias == Bias.Right then (space + 1) / 2 else space / 2
    ensures align == Where.Center && bias == Bias.Right ==> space - before <= before <= space - before + 1
    ensures align == Where.Center && bias == Bias.Left ==> before <= space - before <= before + 1
  {
    match align
    case Left => 0
    case Center => (space + BiasOffset(bias)) / 2
    case Right => space
  }

  /** The length of the longest line, `None` for no lines (the `max()` of line lengths). */
  function TextWidth(lines: seq<string>): (r: Option<nat>)
    ensures r.None? <==> lines == []
    ensures r.Some? ==> forall i :: 0 <= i < |lines| ==> |lines[i]| <= r.value
    ensures r.Some? ==> exists i :: 0 <= i < |lines| && |lines[i]| == r.value
  {
    if lines == [] then None
    else
      match TextWidth(lines[1..])
      case None => Some(|lines[0]|)
      case Some(m) =>
        assert forall i :: 1 <= i < |lines| ==> lines[i] == lines[1..][i - 1];
        Some(if m < |lines[0]| then |lines[0]| else m)
  }

  /** The width to align in: an explicit width must hold the widest line, none means the widest line. */
  function ResolveWidth(width: Option<nat>, textWidth: nat): (r: Result<nat>)
    ensures r.Err? <==> width.Some? && width.value < textWidth
    ensures r.Err? ==> r.error == InsufficientWidth
    ensures r.Ok? ==> textWidth <= r.value
    ensures r.Ok? && width.Some? ==> r.value == width.value
    ensures r.Ok? && width.None? ==> r.value == textWidth
  {
    match width
    case Some(w) => if w < textWidth then Err(InsufficientWidth) else Ok(w)
    case None => Ok(textWidth)
  }

  /** The lines as the padding step sees them: trimmed when `trim` is set. */
  function Prepare(lines: seq<string>, trim: bool): (r: seq<string>)
    ensures |r| == |lines|
    ensures forall i :: 0 <= i < |lines| ==> r[i] == if trim then Trim(lines[i]) else lines[i]
  {
    if trim then seq(|lines|, i requires 0 <= i < |lines| => Trim(lines[i])) else lines
  }

  /** `r` is `before` spaces, then `line`, then `after` spaces. */
  ghost predicate Framed(r: string, before: nat, line: string, after: nat)
  {
    && |r| == before + |line| + after
    && AllSpaces(r[..before])
    && r[before..before + |line|] == line
    && AllSpaces(r[before + |line|..])
  }

  /** One line padded within `width` columns; the spaces after it are kept only with `keepSpaces`. */
  function PadLine(line: string, align: Where, width: nat, bias: Bias, keepSpaces: bool): (r: string)
    requires |line| <= width
    ensures |r| == if keepSpaces then width else Before(align, width - |line|, bias) + |line|
    ensures |r| <= width
  {
    var space := width - |line|;
    var before := Before(align, space, bias);
    Spaces(before) + line + Spaces(if keepSpaces then space - before else 0)
  }

  /** A padded line is `Before` spaces, the line, and the rest of the width as spaces only with `keepSpaces`. */
  lemma PadLineFramed(line: string, align: Where, width: nat, bias: Bias, keepSpaces: bool)
    requires |line| <= width
    ensures var before := Before(align, width - |line|, bias);
            Framed(PadLine(line, align, width, bias, keepSpaces), before, line,
                   if keepSpaces then width - |line| - before else 0)
  {
    var before := Before(align, width - |line|, bias);
    var r := PadLine(line, align, width, bias, keepSpaces);
    assert r[..before] == Spaces(before);
    assert r[before..before + |line|] == line;
  }

  /** Replacing line `i` by its padded form extends the padded prefix by one line. */
  lemma PaddedPrefix(ls: seq<string>, prepared: seq<string>, i: nat, line: string, align: Where, width: nat,
                     bias: Bias, keepSpaces: bool)
    requires i < |ls| == |prepared|
    requires forall k :: 0 <= k < |prepared| ==> |prepared[k]| <= width
    requires forall k :: 0 <= k < i ==> ls[k] == PadLine(prepared[k], align, width, bias, keepSpaces)
    requires forall k :: i <= k < |ls| ==> ls[k] == prepared[k]
    requires line == PadLine(prepared[i], align, width, bias, keepSpaces)
    ensures forall k :: 0 <= k <= i ==> ls[i := line][k] == PadLine(prepared[k], align, width, bias, keepSpaces)
    ensures forall k :: i < k < |ls| ==> ls[i := line][k] == prepared[k]
  {
  }

  /** Every line padded within `width` columns, in order. */
  function PadAll(lines: seq<string>, align: Where, width: nat, bias: Bias, keepSpaces: bool): (r: seq<string>)
    requires forall i :: 0 <= i < |lines| ==> |lines[i]| <= width
    ensures |r| == |lines|
    ensures forall i :: 0 <= i < |lines| ==> r[i] == PadLine(lines[i], align, width, bias, keepSpaces)
  {
    seq(|lines|, i requires 0 <= i < |lines| => PadLine(lines[i], align, width, bias, keepSpaces))
  }

  /**
    What `align_text` computes from the lines it is given: the aligned block,
    or the error it returns.
   */
  function AlignLines(lines: seq<string>, align: Where, width: Option<nat>, trim: bool, bias: Bias,
                      keepSpaces: bool): (r: Result<seq<string>>)
    ensures r == Err(EmptyVector) <==> lines == []
    ensures r == Err(InsufficientWidth) <==>
              lines != [] && width.Some? && width.value < TextWidth(Prepare(lines, trim)).value
    ensures r.Err? ==> r.error == EmptyVector || r.error == InsufficientWidth
    ensures r.Ok? ==> |r.value| == |lines|
  {
    if |lines| == 0 then Err(EmptyVector)
    else
      var prepared := Prepare(lines, trim);
      match TextWidth(prepared)
      case None => Err(UnknownError("couldn't caluclate text_width"))
      case Some(textWidth) =>
        match ResolveWidth(width, textWidth)
        case Err(e) => Err(e)
        case Ok(w) => Ok(PadAll(prepared, align, w, bias, keepSpaces))
  }

  /** The width a non-empty block is aligned in: the explicit one, or else its widest prepared line. */
  function TargetWidth(lines: seq<string>, width: Option<nat>, trim: bool): (w: nat)
    requires lines != []
    ensures ResolveWidth(width, TextWidth(Prepare(lines, trim)).value).Ok? ==>
              ResolveWidth(width, TextWidth(Prepare(lines, trim)).value) == Ok(w)
  {
    match width
    case Some(w) => w
    case None => TextWidth(Prepare(lines, trim)).value
  }

  /** A successful alignment had a non-empty block and accepted its target width. */
  lemma AlignLinesOkCases(lines: seq<string>, align: Where, width: Option<nat>, trim: bool, bias: Bias,
                          keepSpaces: bool)
    requires AlignLines(lines, align, width, trim, bias, keepSpaces).Ok?
    ensures lines != []
    ensures ResolveWidth(width, TextWidth(Prepare(lines, trim)).value) == Ok(TargetWidth(lines, width, trim))
  {
  }

  /** When the target width `w` is accepted, the result is the prepared lines padded within `w`. */
  lemma AlignLinesOk(lines: seq<string>, align: Where, width: Option<nat>, trim: bool, bias: Bias,
                     keepSpaces: bool, w: nat)
    requires lines != []
    requires ResolveWidth(width, TextWidth(Prepare(lines, trim)).value) == Ok(w)
    ensures forall i :: 0 <= i < |lines| ==> |Prepare(lines, trim)[i]| <= w
    ensures AlignLines(lines, align, width, trim, bias, keepSpaces)
            == Ok(PadAll(Prepare(lines, trim), align, w, bias, keepSpaces))
  {
  }

  /**
    On success the target width holds every prepared line, so no padding
    amount is negative; without an explicit width some line fills it.
   */
  lemma TargetWidthHoldsLines(lines: seq<string>, align: Where, width: Option<nat>, trim: bool, bias: Bias,
                              keepSpaces: bool)
    requires AlignLines(lines, align, width, trim, bias, keepSpaces).Ok?
    ensures forall i :: 0 <= i < |lines| ==> |Prepare(lines, trim)[i]| <= TargetWidth(lines, width, trim)
    ensures width.None? ==>
              exists i :: 0 <= i < |lines| && |Prepare(lines, trim)[i]| == TargetWidth(lines, width, trim)
  {
    AlignLinesOkCases(lines, align, width, trim, bias, keepSpaces);
  }

  /**
    On success the i-th output line is, in this order, `Before` spaces, the
    i-th prepared line and, only with `keepSpaces`, the rest of the free
    columns as spaces.
   */
  lemma AlignedLine(lines: seq<string>, align: Where, width: Option<nat>, trim: bool, bias: Bias,
                    keepSpaces: bool, out: seq<string>, i: nat)
    requires AlignLines(lines, align, width, trim, bias, keepSpaces) == Ok(out)
    requires i < |lines|
    ensures |out| == |lines|
    ensures var line := Prepare(lines, trim)[i];
            var space := TargetWidth(lines, width, trim) - |line|;
            && space >= 0
            && Framed(out[i], Before(align, space, bias), line,
                      if keepSpaces then space - Before(align, space, bias) else 0)
  {
    AlignLinesOkCases(lines, align, width, trim, bias, keepSpaces);
    var w := TargetWidth(lines, width, trim);
    var prepared := Prepare(lines, trim);
    AlignLinesOk(lines, align, width, trim, bias, keepSpaces, w);
    assert out[i] == PadLine(prepared[i], align, w, bias, keepSpaces);
    PadLineFramed(prepared[i], align, w, bias, keepSpaces);
  }

  /** With `keepSpaces`, every output line is exactly as wide as the target width. */
  lemma KeepSpacesFillsWidth(lines: seq<string>, align: Where, width: Option<nat>, trim: bool, bias: Bias,
                             out: seq<string>)
    requires AlignLines(lines, align, width, trim, bias, true) == Ok(out)
    ensures forall i :: 0 <= i < |out| ==> |out[i]| == TargetWidth(lines, width, trim)
  {
    AlignLinesOkCases(lines, align, width, trim, bias, true);
    AlignLinesOk(lines, align, width, trim, bias, true, TargetWidth(lines, width, trim));
  }

  /**
    Without `keepSpaces`, an output line is its padding plus its content,
    never wider than the target width, and exactly as wide for `Right`.
   */
  lemma DropSpacesWidth(lines: seq<string>, align: Where, width: Option<nat>, trim: bool, bias: Bias,
                        out: seq<string>)
    requires AlignLines(lines, align, width, trim, bias, false) == Ok(out)
    ensures forall i :: 0 <= i < |out| ==>
              |out[i]| == |Prepare(lines, trim)[i]|
                          + Before(align, TargetWidth(lines, width, trim) - |Prepare(lines, trim)[i]|, bias)
    ensures forall i :: 0 <= i < |out| ==> |out[i]| <= TargetWidth(lines, width, trim)
    ensures align == Where.Right ==> forall i :: 0 <= i < |out| ==> |out[i]| == TargetWidth(lines, width, trim)
  {
    AlignLinesOkCases(lines, align, width, trim, bias, false);
    AlignLinesOk(lines, align, width, trim, bias, false, TargetWidth(lines, width, trim));
  }

  /** All lines equally long: the widest line is that length. */
  lemma TextWidthOfUniform(lines: seq<string>, w: nat)
    requires lines != []
    requires forall i :: 0 <= i < |lines| ==> |lines[i]| == w
    ensures TextWidth(lines) == Some(w)
  {
  }

  /** Trimming a padded trimmed line gives the line back. */
  lemma TrimPadLine(line: string, align: Where, width: nat, bias: Bias, keepSpaces: bool)
    requires |line| <= width && Trimmed(line)
    ensures Trim(PadLine(line, align, width, bias, keepSpaces)) == line
  {
    var before := Before(align, width - |line|, bias);
    var after := if keepSpaces then width - |line| - before else 0;
    var padded := PadLine(line, align, width, bias, keepSpaces);
    calc {
      Trim(padded);
      Trim(Spaces(before) + line + Spaces(after));
      { TrimPadded(before, line, after); }
      line;
    }
  }

  /** Trimming padded trimmed lines gives the lines back. */
  lemma TrimPadAll(lines: seq<string>, align: Where, width: nat, bias: Bias, keepSpaces: bool)
    requires forall i :: 0 <= i < |lines| ==> |lines[i]| <= width && Trimmed(lines[i])
    ensures Prepare(PadAll(lines, align, width, bias, keepSpaces), true) == lines
  {
    var padded := PadAll(lines, align, width, bias, keepSpaces);
    forall i | 0 <= i < |lines|
      ensures Prepare(padded, true)[i] == lines[i]
    {
      TrimPadLine(lines[i], align, width, bias, keepSpaces);
    }
  }

  /** Trimming the aligned lines gives back the trimmed input lines. */
  lemma TrimAligned(lines: seq<string>, align: Where, width: Option<nat>, bias: Bias,
                    keepSpaces: bool, out: seq<string>)
    requires AlignLines(lines, align, width, true, bias, keepSpaces) == Ok(out)
    ensures Prepare(out, true) == Prepare(lines, true)
  {
    AlignLinesOkCases(lines, align, width, true, bias, keepSpaces);
    var w := TargetWidth(lines, width, true);
    AlignLinesOk(lines, align, width, true, bias, keepSpaces, w);
    TrimPadAll(Prepare(lines, true), align, w, bias, keepSpaces);
  }

  /** A line that already fills the width is left as it is. */
  lemma PadFullLine(line: string, align: Where, bias: Bias, keepSpaces: bool)
    ensures PadLine(line, align, |line|, bias, keepSpaces) == line
  {
    AppendNoSpaces(line);
    assert Spaces(0) + line == line;
  }

  /** Realigning a trimmed alignment trims the padding away and puts it back. */
  lemma AlignIdempotentTrim(lines: seq<string>, align: Where, width: Option<nat>, bias: Bias,
                            keepSpaces: bool, out: seq<string>)
    requires AlignLines(lines, align, width, true, bias, keepSpaces) == Ok(out)
    ensures AlignLines(out, align, width, true, bias, keepSpaces) == Ok(out)
  {
    AlignLinesOkCases(lines, align, width, true, bias, keepSpaces);
    var w := TargetWidth(lines, width, true);
    AlignLinesOk(lines, align, width, true, bias, keepSpaces, w);
    TrimAligned(lines, align, width, bias, keepSpaces, out);
    AlignLinesOk(out, align, width, true, bias, keepSpaces, w);
  }

  /** Realigning an alignment that kept its spaces finds every line already full. */
  lemma AlignIdempotentKeep(lines: seq<string>, align: Where, width: Option<nat>, bias: Bias,
                            out: seq<string>)
    requires AlignLines(lines, align, width, false, bias, true) == Ok(out)
    ensures AlignLines(out, align, width, false, bias, true) == Ok(out)
  {
    AlignLinesOkCases(lines, align, width, false, bias, true);
    var w := TargetWidth(lines, width, false);
    KeepSpacesFillsWidth(lines, align, width, false, bias, out);
    TextWidthOfUniform(out, w);
    assert Prepare(out, false) == out;
    AlignLinesOk(out, align, width, false, bias, true, w);
    forall i | 0 <= i < |out|
      ensures PadLine(out[i], align, w, bias, true) == out[i]
    {
      PadFullLine(out[i], align, bias, true);
    }
    assert PadAll(out, align, w, bias, true) == out;
  }

  /**
    Aligning an aligned block again with the same arguments changes nothing,
    whenever the padding of the first pass is either trimmed away again or
    kept in full (then every line already fills the width).
   */
  lemma AlignIdempotent(lines: seq<string>, align: Where, width: Option<nat>, trim: bool, bias: Bias,
                        keepSpaces: bool, out: seq<string>)
    requires trim || keepSpaces
    requires AlignLines(lines, align, width, trim, bias, keepSpaces) == Ok(out)
    ensures AlignLines(out, align, width, trim, bias, keepSpaces) == Ok(out)
  {
    if trim {
      AlignIdempotentTrim(lines, align, width, bias, keepSpaces, out);
    } else {
      AlignIdempotentKeep(lines, align, width, bias, out);
    }
  }

  /** The empty-vector example of the documentation. */
  lemma EmptyVectorExample()
    ensures AlignLines([], Where.Center, None, true, Bias.Right, true) == Err(EmptyVector)
  {
  }

  /** The insufficient-width example of the documentation: ten characters do not fit in three columns. */
  lemma InsufficientWidthExample()
    ensures AlignLines(["0123456789"], Where.Center, Some(3), true, Bias.Right, true) == Err(InsufficientWidth)
  {
    var line := "0123456789";
    assert Trimmed(line);
    assert Trim(line) == line;
    assert Prepare([line], true) == [line];
    assert TextWidth([line]) == Some(10);
  }

  /** Trimming the first line of the centring example. */
  lemma CenterExampleHelloTrim()
    ensures Trim("Hello           ") == "Hello"
  {
    assert "Hello           " == Spaces(0) + "Hello" + Spaces(11);
    TrimPadded(0, "Hello", 11);
  }

  /** Padding the first line of the centring example: 25 free columns, 13 before and 12 after. */
  lemma CenterExampleHelloPad()
    ensures PadLine("Hello", Where.Center, 30, Bias.Right, true) == "             Hello            "
  {
    assert Before(Where.Center, 25, Bias.Right) == 13;
    CenterExampleHelloSpaces();
  }

  /** The padded first line of the centring example, spelt out. */
  lemma CenterExampleHelloSpaces()
    ensures Spaces(13) + "Hello" + Spaces(12) == "             Hello            "
  {
    assert Spaces(13) == "             " && Spaces(12) == "            ";
  }

  /** Trimming the second line of the centring example. */
  lemma CenterExampleWorldTrim()
    ensures Trim("            World!") == "World!"
  {
    assert "            World!" == Spaces(12) + "World!" + Spaces(0);
    TrimPadded(12, "World!", 0);
  }

  /** Padding the second line of the centring example: 24 free columns, 12 on either side. */
  lemma CenterExampleWorldPad()
    ensures PadLine("World!", Where.Center, 30, Bias.Right, true) == "            World!            "
  {
    assert Before(Where.Center, 24, Bias.Right) == 12;
    CenterExampleWorldSpaces();
  }

  /** The padded second line of the centring example, spelt out. */
  lemma CenterExampleWorldSpaces()
    ensures Spaces(12) + "World!" + Spaces(12) == "            World!            "
  {
    assert Spaces(12) == "            ";
  }

  /** Trimming the third line of the centring example. */
  lemma CenterExampleJustifyTrim()
    ensures Trim("   This should justify center     ") == "This should justify center"
  {
    assert "   This should justify center     " == Spaces(3) + "This should justify center" + Spaces(5);
    TrimPadded(3, "This should justify center", 5);
  }

  /** Padding the third line of the centring example: 4 free columns, 2 on either side. */
  lemma CenterExampleJustifyPad()
    ensures PadLine("This should justify center", Where.Center, 30, Bias.Right, true) == "  This should justify center  "
  {
    assert Before(Where.Center, 4, Bias.Right) == 2;
    CenterExampleJustifySpaces();
  }

  /** The padded third line of the centring example, spelt out. */
  lemma CenterExampleJustifySpaces()
    ensures Spaces(2) + "This should justify center" + Spaces(2) == "  This should justify center  "
  {
    assert Spaces(2) == "  ";
  }

  /** Trimming the three lines of the centring example. */
  lemma CenterExamplePrepare()
    ensures Prepare(["Hello           ", "            World!", "   This should justify center     "], true)
            == ["Hello", "World!", "This should justify center"]
  {
    PrepareThree("Hello           ", "            World!", "   This should justify center     ");
    CenterExampleHelloTrim();
    CenterExampleWorldTrim();
    CenterExampleJustifyTrim();
  }

  /** Trimming three lines trims each one. */
  lemma PrepareThree(a: string, b: string, c: string)
    ensures Prepare([a, b, c], true) == [Trim(a), Trim(b), Trim(c)]
  {
  }

  /** The widest trimmed line of the centring example has 26 characters. */
  lemma CenterExampleWidth()
    ensures TextWidth(["Hello", "World!", "This should justify center"]) == Some(26)
  {
    assert ["Hello", "World!", "This should justify center"][1..] == ["World!", "This should justify center"];
    assert ["World!", "This should justify center"][1..] == ["This should justify center"];
  }

  /** Padding the three trimmed lines of the centring example to 30 columns. */
  lemma CenterExamplePadAll()
    ensures PadAll(["Hello", "World!", "This should justify center"], Where.Center, 30, Bias.Right, true)
            == ["             Hello            ",
                "            World!            ",
                "  This should justify center  "]
  {
    CenterExampleHelloPad();
    CenterExampleWorldPad();
    CenterExampleJustifyPad();
  }

  /** The centring example of the documentation: three lines trimmed and centred in 30 columns. */
  lemma CenterExample()
    ensures AlignLines(["Hello           ", "            World!", "   This should justify center     "],
                       Where.Center, Some(30), true, Bias.Right, true)
            == Ok(["             Hello            ",
                   "            World!            ",
                   "  This should justify center  "])
  {
    var lines := ["Hello           ", "            World!", "   This should justify center     "];
    CenterExamplePrepare();
    CenterExampleWidth();
    AlignLinesOk(lines, Where.Center, Some(30), true, Bias.Right, true, 30);
    CenterExamplePadAll();
  }

  /** The `trim` step of `align_text`: trims every line in place. */
  method TrimEach(lines: seq<string>) returns (ls: seq<string>)
    ensures ls == Prepare(lines, true)
  {
    ls := lines;
    var i := 0;
    while i < |ls|
      invariant i <= |ls| == |lines|
      invariant forall k :: 0 <= k < i ==> ls[k] == Trim(lines[k])
      invariant forall k :: i <= k < |ls| ==> ls[k] == lines[k]
    {
      ls := ls[i := Trim(ls[i])];
      i := i + 1;
    }
  }

  /**
    The padding loop of `align_text`: puts the spaces of `Before` in front of
    every line and, with `keepSpaces`, the remaining spaces behind it.
   */
  method PadEach(lines: seq<string>, align: Where, width: nat, bias: Bias, keepSpaces: bool)
    returns (ls: seq<string>)
    requires forall k :: 0 <= k < |lines| ==> |lines[k]| <= width
    ensures ls == PadAll(lines, align, width, bias, keepSpaces)
  {
    ls := lines;
    var i := 0;
    while i < |ls|
      invariant i <= |ls| == |lines|
      invariant forall k :: 0 <= k < i ==> ls[k] == PadLine(lines[k], align, width, bias, keepSpaces)
      invariant forall k :: i <= k < |ls| ==> ls[k] == lines[k]
    {
      var original := ls[i];
      var space: nat := width - |original|;
      var before := Before(align, space, bias);
      var after: nat := space - before;
      var line := Spaces(before) + original;
      if keepSpaces {
        line := line + Spaces(after);
      }
      PaddedPrefix(ls, lines, i, line, align, width, bias, keepSpaces);
      ls := ls[i := line];
      i := i + 1;
    }
  }

  /** A block of lines that `AlignText` rewrites in place (the `Vec<String>` of the source). */
  class Block {
    var lines: seq<string>

    constructor (lines: seq<string>)
      ensures this.lines == lines
    {
      this.lines := lines;
    }

    /**
      `align_text`: aligns a trimmed (if `trim`) copy of the lines and
      commits it only on success; on an error the lines are unchanged.
     */
    method AlignText(align: Where, width: Option<nat>, trim: bool, bias: Bias, keepSpaces: bool)
      returns (r: Result<()>)
      modifies this
      ensures match AlignLines(old(lines), align, width, trim, bias, keepSpaces)
              case Ok(out) => r == Ok(()) && lines == out
              case Err(e) => r == Err(e) && lines == old(lines)
    {
      var ls := lines;
      ghost var input := lines;

      if |ls| == 0 {
        return Err(EmptyVector);
      }

      if trim {
        ls := TrimEach(ls);
      }
      assert ls == Prepare(input, trim);

      var textWidth := TextWidth(ls);
      if textWidth.None? {
        return Err(UnknownError("couldn't caluclate text_width"));
      }

      var w: nat;
      match width {
        case Some(n) =>
          if n < textWidth.value {
            return Err(InsufficientWidth);
          }
          w := n;
        case None =>
          w := textWidth.value;
      }

      ls := PadEach(ls, align, w, bias, keepSpaces);
      AlignLinesOk(input, align, width, trim, bias, keepSpaces, w);
      lines := ls;
      return Ok(());
    }
  }
}
