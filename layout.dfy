/**
 * What `DefaultLabel.draw` computes, as functions of the label's content
 * and the drawing area: the budget left after the QR code, the index and
 * the icon row, and the text lines placed top-down until one no longer fits.
 * The imperative `Draw` method of the label class is proved equal to these.
 */
module Layout {
  import opened Values
  import opened Backend
  import opened Fit
  import opened Qr

  /** Font defaults of the drawing library when a style gives none. */
  const DefaultFontName: string := "Helvetica"
  const DefaultFontSize: real := 10.0

  /** Side of an icon square, in points. */
  const IconSize: real := 16.0

  /** One line of label text: the string, its style map and its shrink policy. */
  datatype TextLine = TextLine(text: string, style: Style, shrink: Json)

  /** A shape added to the label drawing. */
  datatype DrawCmd =
    | DrawQr(widget: QrWidget)
    | DrawString(x: real, y: real, text: string, style: Style)
    | DrawImage(x: real, y: real, w: real, h: real, path: string)

  /** The renderable parts of a label. */
  datatype Content = Content(
    textLines: seq<TextLine>,
    qrData: Option<string>,
    qrFormat: Style,
    icons: seq<string>,
    index: Option<string>,
    indexFormat: Style)

  /** `fmt.get("fontSize", default)` as a number. */
  function SizeOf(style: Style): Result<real> {
    NumberOr(style, "fontSize", DefaultFontSize)
  }

  /** `fmt.get("fontName", default)` as a font name. */
  function FontOf(style: Style): Result<string> {
    StringOr(style, "fontName", DefaultFontName)
  }

  /** The text origin, the space left for text, and the shapes drawn so far. */
  datatype Budget = Budget(textX: real, maxWidth: real, maxHeight: real, cmds: seq<DrawCmd>)

  /** The QR code, drawn at the left: the text starts one point right of it. */
  function WithQr(env: Env, data: Option<string>, fmt: Style, b: Budget): Result<Budget> {
    match data
    case None => Ok(b)
    case Some(d) =>
      var widget :- MakeQr(d, fmt, env.deflate);
      var barWidth :- BarWidth(widget, env);
      var textX := barWidth + 1.0;
      Ok(Budget(textX, b.maxWidth - textX, b.maxHeight, b.cmds + [DrawQr(widget)]))
  }

  /** The index, right-aligned at the top right corner; the text loses its width plus one point. */
  function WithIndex(env: Env, index: Option<string>, fmt: Style, width: real, height: real, b: Budget): Result<Budget> {
    match index
    case None => Ok(b)
    case Some(s) =>
      var font :- FontOf(fmt);
      var size :- SizeOf(fmt);
      var indexWidth := StringWidth(env, s, font, size);
      Ok(b.(maxWidth := b.maxWidth - (indexWidth + 1.0),
            cmds := b.cmds + [DrawString(width, height - size, s, fmt)]))
  }

  /** The icon row along the bottom right: squares of IconSize one point apart. */
  function IconRow(icons: seq<string>, width: real): (r: seq<DrawCmd>)
    ensures |r| == |icons|
  {
    var n := |icons| as real;
    seq(|icons|, k requires 0 <= k < |icons| =>
      DrawImage(width - (IconSize + 1.0) * n + (IconSize + 1.0) * (k as real), 1.0, IconSize, IconSize, icons[k]))
  }

  function WithIcons(icons: seq<string>, width: real, b: Budget): Budget {
    if |icons| == 0 then b
    else b.(maxHeight := b.maxHeight - IconSize, cmds := b.cmds + IconRow(icons, width))
  }

  /** The first three stages of `draw`, in their order: QR code, index, icons. */
  function Preamble(env: Env, c: Content, width: real, height: real): (r: Result<Budget>)
    ensures r.Ok? ==>
      |r.value.cmds| == (if c.qrData.Some? then 1 else 0) + (if c.index.Some? then 1 else 0) + |c.icons|
    ensures r.Ok? ==> r.value.maxHeight == (if |c.icons| > 0 then height - IconSize else height)
  {
    var afterQr :- WithQr(env, c.qrData, c.qrFormat, Budget(0.0, width, height, []));
    var afterIndex :- WithIndex(env, c.index, c.indexFormat, width, height, afterQr);
    Ok(WithIcons(c.icons, width, afterIndex))
  }

  /**
   * The budget the text lines get: the text starts right of the QR code,
   * its width loses the QR code's width plus one and the index's width plus
   * one, the icon row takes 16 points of height, and the shapes come in the
   * order QR code, index, icons.
   */
  lemma PreambleBudget(env: Env, c: Content, width: real, height: real)
    requires Preamble(env, c, width, height).Ok?
    ensures var b := Preamble(env, c, width, height).value;
      var qrWidth := if c.qrData.Some? then BarWidth(MakeQr(c.qrData.value, c.qrFormat, env.deflate).value, env).value + 1.0 else 0.0;
      var indexWidth := if c.index.Some?
        then StringWidth(env, c.index.value, FontOf(c.indexFormat).value, SizeOf(c.indexFormat).value) + 1.0
        else 0.0;
      && b.textX == qrWidth
      && b.maxWidth == width - qrWidth - indexWidth
      && b.maxHeight == (if |c.icons| > 0 then height - IconSize else height)
      && b.cmds ==
         (if c.qrData.Some? then [DrawQr(MakeQr(c.qrData.value, c.qrFormat, env.deflate).value)] else [])
         + (if c.index.Some? then [DrawString(width, height - SizeOf(c.indexFormat).value, c.index.value, c.indexFormat)] else [])
         + (if |c.icons| > 0 then IconRow(c.icons, width) else [])
  {
    var b0 := Budget(0.0, width, height, []);
    var b1 := WithQr(env, c.qrData, c.qrFormat, b0);
    assert b1.Ok?;
    var b2 := WithIndex(env, c.index, c.indexFormat, width, height, b1.value);
    assert b2.Ok?;
  }

  /** The preamble fails exactly when the QR bar width or the index's font settings are malformed. */
  lemma PreambleFails(env: Env, c: Content, width: real, height: real)
    ensures Preamble(env, c, width, height).Err? <==>
      (c.qrData.Some? && (MakeQr(c.qrData.value, c.qrFormat, env.deflate).Err?
                          || BarWidth(MakeQr(c.qrData.value, c.qrFormat, env.deflate).value, env).Err?))
      || (c.index.Some? && (FontOf(c.indexFormat).Err? || SizeOf(c.indexFormat).Err?))
  {
    var b1 := WithQr(env, c.qrData, c.qrFormat, Budget(0.0, width, height, []));
    if b1.Ok? {
      var b2 := WithIndex(env, c.index, c.indexFormat, width, height, b1.value);
    }
  }

  /**
   * Icon k of n sits at x = width - 17n + 17k, y = 1, 16 by 16: left to right,
   * one point apart, the last one ending one point short of the right edge.
   */
  lemma IconRowLayout(icons: seq<string>, width: real)
    requires |icons| > 0
    ensures var r := IconRow(icons, width);
      var n := |icons| as real;
      && (forall k :: 0 <= k < |r| ==>
            r[k].DrawImage? && r[k].path == icons[k] && r[k].y == 1.0
            && r[k].w == IconSize && r[k].h == IconSize
            && r[k].x == width - 17.0 * n + 17.0 * (k as real))
      && (forall k :: 0 <= k < |r| - 1 ==> r[k].x + r[k].w + 1.0 == r[k + 1].x)
      && r[0].x == width - 17.0 * n
      && r[|r| - 1].x + r[|r| - 1].w == width - 1.0
  {
    var r := IconRow(icons, width);
    var n := |icons| as real;
    assert r[|r| - 1].x == width - 17.0 * n + 17.0 * ((|icons| - 1) as real);
  }

  /** The strings of a wrapped line, each one step of `size + 1` below the previous. */
  function Stacked(x: real, top: real, pieces: seq<string>, size: real, style: Style): (r: seq<DrawCmd>)
    ensures |r| == |pieces|
  {
    seq(|pieces|, k requires 0 <= k < |pieces| =>
      DrawString(x, top - ((k + 1) as real) * (size + 1.0), pieces[k], style))
  }

  /** One more piece of a wrapped line: its string goes one step of `size + 1` below the previous cursor. */
  lemma StackedStep(x: real, top: real, pieces: seq<string>, size: real, style: Style, k: nat)
    requires k < |pieces|
    ensures Stacked(x, top, pieces, size, style)[..k + 1]
         == Stacked(x, top, pieces, size, style)[..k]
            + [DrawString(x, (top - (k as real) * (size + 1.0)) - (size + 1.0), pieces[k], style)]
  {
    var r := Stacked(x, top, pieces, size, style);
    assert ((k + 1) as real) * (size + 1.0) == (k as real) * (size + 1.0) + (size + 1.0);
    assert r[..k + 1] == r[..k] + [r[k]];
  }

  /** What one text line does to the drawing: emit strings and move the cursor, stop the loop, or raise. */
  datatype Step =
    | Emitted(cmds: seq<DrawCmd>, cursor: real, line: TextLine)
    | Stopped(line: TextLine)
    | Failed(error: Error)

  predicate IsWrap(line: TextLine) {
    line.shrink == JStr("wrap")
  }

  predicate IsScale(line: TextLine) {
    line.shrink == JStr("scale")
  }

  /**
   * One iteration of the text loop of `draw`. A "wrap" line is wrapped to
   * the width and emitted only if all its pieces fit under the cursor; a
   * "scale" line is shrunk to the width, the new size is written back into
   * its style, and it is emitted only if that size fits under the cursor;
   * any other line is emitted at its size if that fits. A line that does not
   * fit stops the loop. With a width of 0 or less a scale line that does not
   * fit makes the source loop for ever (NonTermination).
   */
  function LineStep(env: Env, line: TextLine, textX: real, maxWidth: real, textY: real): Step
  {
    match SizeOf(line.style)
    case Err(e) => Failed(e)
    case Ok(size) =>
      if IsWrap(line) then WrapStep(env, line, textX, maxWidth, textY, size)
      else if IsScale(line) then ScaleStep(env, line, textX, maxWidth, textY, size)
      else PlaceLine(line, size, textX, textY)
  }

  /** A "wrap" line: its pieces are emitted only if all of them fit under the cursor. */
  function WrapStep(env: Env, line: TextLine, textX: real, maxWidth: real, textY: real, size: real): (r: Step)
    ensures r.Failed? <==>
      FontOf(line.style).Err? || WrapTextResult(env, line.text, maxWidth, FontOf(line.style).value, size).Err?
    ensures !r.Failed? ==> r.line == line
    ensures r.Emitted? ==> |r.cmds| == |WrapTextResult(env, line.text, maxWidth, FontOf(line.style).value, size).value|
  {
    match FontOf(line.style)
    case Err(e) => Failed(e)
    case Ok(font) =>
      match WrapTextResult(env, line.text, maxWidth, font, size)
      case Err(e) => Failed(e)
      case Ok(pieces) =>
        if size * (|pieces| as real) > textY then Stopped(line)
        else Emitted(Stacked(textX, textY, pieces, size, line.style),
                     textY - (|pieces| as real) * (size + 1.0), line)
  }

  /** A "scale" line: shrunk to the width, its new size written into its style, then placed. */
  function ScaleStep(env: Env, line: TextLine, textX: real, maxWidth: real, textY: real, size: real): (r: Step)
    ensures FontOf(line.style).Err? ==> r == Failed(FontOf(line.style).error)
    ensures FontOf(line.style).Ok? ==>
      (r == Failed(NonTermination) <==> !ScaleTerminates(env, line.text, maxWidth, FontOf(line.style).value, size))
    ensures !r.Failed? ==> r.line.text == line.text && r.line.shrink == line.shrink
    ensures r.Emitted? ==> |r.cmds| == 1
  {
    match FontOf(line.style)
    case Err(e) => Failed(e)
    case Ok(font) =>
      if !ScaleTerminates(env, line.text, maxWidth, font, size) then Failed(NonTermination)
      else
        var scaled := ScaledSize(env, line.text, maxWidth, font, size);
        PlaceLine(line.(style := line.style["fontSize" := JNum(scaled)]), scaled, textX, textY)
  }

  /** A single string one step of `size + 1` below the cursor, if its size fits under the cursor. */
  function PlaceLine(line: TextLine, size: real, textX: real, textY: real): (r: Step)
    ensures r.Stopped? <==> size > textY
    ensures !r.Failed? && r.line == line
    ensures r.Emitted? ==>
      |r.cmds| == 1 && r.cmds[0].DrawString? && r.cmds[0].y == r.cursor && r.cursor == textY - (size + 1.0)
  {
    if size > textY then Stopped(line)
    else Emitted([DrawString(textX, textY - (size + 1.0), line.text, line.style)], textY - (size + 1.0), line)
  }

  /** The line a step leaves behind: the same text and policy, and the same style but for a scaled font size. */
  predicate WrittenBack(env: Env, line: TextLine, line': TextLine, maxWidth: real) {
    && line'.text == line.text
    && line'.shrink == line.shrink
    && (if IsScale(line) && SizeOf(line.style).Ok? && FontOf(line.style).Ok?
           && ScaleTerminates(env, line.text, maxWidth, FontOf(line.style).value, SizeOf(line.style).value)
        then line'.style == line.style["fontSize" := JNum(ScaledSize(env, line.text, maxWidth, FontOf(line.style).value, SizeOf(line.style).value))]
        else line'.style == line.style)
  }

  /**
   * An emitted step drew at least one string and passed its check (the
   * strings' sizes fit under the cursor); it moved the cursor down by exactly
   * `size + 1` per string, string k sitting k+1 steps below the old cursor.
   */
  predicate EmitsBelow(s: Step, textX: real, textY: real) {
    s.Emitted? ==>
      var size := SizeOf(s.line.style);
      && size.Ok? && |s.cmds| >= 1
      && size.value * (|s.cmds| as real) <= textY
      && s.cursor == textY - (|s.cmds| as real) * (size.value + 1.0)
      && forall k :: 0 <= k < |s.cmds| ==>
           s.cmds[k].DrawString? && s.cmds[k].x == textX && s.cmds[k].style == s.line.style
           && s.cmds[k].y == textY - ((k + 1) as real) * (size.value + 1.0)
  }

  lemma PlaceLineCursor(line: TextLine, size: real, textX: real, textY: real)
    requires SizeOf(line.style) == Ok(size)
    ensures EmitsBelow(PlaceLine(line, size, textX, textY), textX, textY)
    ensures PlaceLine(line, size, textX, textY).line == line
  {
  }

  lemma WrapStepCursor(env: Env, line: TextLine, textX: real, maxWidth: real, textY: real, size: real)
    requires SizeOf(line.style) == Ok(size)
    ensures EmitsBelow(WrapStep(env, line, textX, maxWidth, textY, size), textX, textY)
    ensures var s := WrapStep(env, line, textX, maxWidth, textY, size); !s.Failed? ==> s.line == line
  {
    var font := FontOf(line.style);
    if font.Ok? {
      var wrapped := WrapTextResult(env, line.text, maxWidth, font.value, size);
      if wrapped.Ok? {
        var pieces := wrapped.value;
        WrapTextFits(env, line.text, maxWidth, font.value, size);
        StackedEmitsBelow(line, pieces, size, textX, textY);
        if size * (|pieces| as real) <= textY {
          assert WrapStep(env, line, textX, maxWidth, textY, size)
              == Emitted(Stacked(textX, textY, pieces, size, line.style), textY - (|pieces| as real) * (size + 1.0), line);
        }
      }
    }
  }

  /** A wrapped line's strings, once they fit under the cursor, are emitted as `EmitsBelow` says. */
  lemma StackedEmitsBelow(line: TextLine, pieces: seq<string>, size: real, textX: real, textY: real)
    requires SizeOf(line.style) == Ok(size) && |pieces| >= 1
    ensures size * (|pieces| as real) <= textY ==>
      EmitsBelow(Emitted(Stacked(textX, textY, pieces, size, line.style),
                         textY - (|pieces| as real) * (size + 1.0), line), textX, textY)
  {
  }

  lemma ScaleStepCursor(env: Env, line: TextLine, textX: real, maxWidth: real, textY: real, size: real)
    requires SizeOf(line.style) == Ok(size)
    ensures EmitsBelow(ScaleStep(env, line, textX, maxWidth, textY, size), textX, textY)
    ensures var s := ScaleStep(env, line, textX, maxWidth, textY, size);
      !s.Failed? ==> s.line == line.(style := line.style["fontSize" := JNum(ScaledSize(env, line.text, maxWidth, FontOf(line.style).value, size))])
  {
    var s := ScaleStep(env, line, textX, maxWidth, textY, size);
    if !s.Failed? {
      var scaled := ScaledSize(env, line.text, maxWidth, FontOf(line.style).value, size);
      var line' := line.(style := line.style["fontSize" := JNum(scaled)]);
      assert SizeOf(line'.style) == Ok(scaled);
      PlaceLineCursor(line', scaled, textX, textY);
    }
  }

  /**
   * A step changes its line only by writing a scaled size back; an emitted
   * line moves the cursor down by exactly `size + 1` per string, string k
   * sitting k+1 steps below the cursor, and the strings' total height fits
   * under the cursor.
   */
  lemma StepCursor(env: Env, line: TextLine, textX: real, maxWidth: real, textY: real)
    ensures SizeOf(line.style).Err? ==> LineStep(env, line, textX, maxWidth, textY) == Failed(SizeOf(line.style).error)
    ensures var s := LineStep(env, line, textX, maxWidth, textY);
      !s.Failed? ==> WrittenBack(env, line, s.line, maxWidth)
    ensures var s := LineStep(env, line, textX, maxWidth, textY);
      s.Emitted? && !IsWrap(line) ==> |s.cmds| == 1
    ensures EmitsBelow(LineStep(env, line, textX, maxWidth, textY), textX, textY)
  {
    if SizeOf(line.style).Ok? {
      var size := SizeOf(line.style).value;
      if IsWrap(line) {
        WrapStepCursor(env, line, textX, maxWidth, textY, size);
      } else if IsScale(line) {
        ScaleStepCursor(env, line, textX, maxWidth, textY, size);
      } else {
        PlaceLineCursor(line, size, textX, textY);
      }
    }
  }

  /**
   * Under both shrink policies, every string a step emits measures at most
   * the available width in the font and size it is drawn with.
   */
  lemma StepFitsWidth(env: Env, line: TextLine, textX: real, maxWidth: real, textY: real)
    requires IsWrap(line) || IsScale(line)
    ensures var s := LineStep(env, line, textX, maxWidth, textY);
      s.Emitted? ==>
        FontOf(s.line.style).Ok? && SizeOf(s.line.style).Ok? &&
        forall k :: 0 <= k < |s.cmds| ==>
          StringWidth(env, s.cmds[k].text, FontOf(s.line.style).value, SizeOf(s.line.style).value) <= maxWidth
  {
    var s := LineStep(env, line, textX, maxWidth, textY);
    if s.Emitted? && IsWrap(line) {
      var pieces := WrapTextResult(env, line.text, maxWidth, FontOf(line.style).value, SizeOf(line.style).value).value;
      WrapTextFits(env, line.text, maxWidth, FontOf(line.style).value, SizeOf(line.style).value);
      assert forall k :: 0 <= k < |s.cmds| ==> s.cmds[k].text == pieces[k];
    }
  }

  /** `label.add` after shapes already added. */
  function Prepend(cmds: seq<DrawCmd>, r: Result<seq<DrawCmd>>): Result<seq<DrawCmd>> {
    match r
    case Ok(rest) => Ok(cmds + rest)
    case Err(e) => Err(e)
  }

  /** The text loop's outcome: the shapes (or the exception), the lines as left behind, the cursor, and whether a line stopped the loop. */
  datatype Rendered = Rendered(result: Result<seq<DrawCmd>>, lines: seq<TextLine>, cursor: real, stopped: bool)

  /** The text loop over a step function: each line's step at the cursor, until one stops or raises. */
  function RunSteps(step: (TextLine, real) -> Step, lines: seq<TextLine>, textY: real): (r: Rendered)
    ensures |r.lines| == |lines|
    decreases |lines|
  {
    if lines == [] then Rendered(Ok([]), [], textY, false)
    else
      match step(lines[0], textY)
      case Failed(e) => Rendered(Err(e), lines, textY, false)
      case Stopped(l) => Rendered(Ok([]), [l] + lines[1..], textY, true)
      case Emitted(cmds, y, l) =>
        var rest := RunSteps(step, lines[1..], y);
        Rendered(Prepend(cmds, rest.result), [l] + rest.lines, rest.cursor, rest.stopped)
  }

  /** The text loop of `draw`, from the given cursor: every line takes its `LineStep`. */
  function RenderLines(env: Env, lines: seq<TextLine>, textX: real, maxWidth: real, textY: real): (r: Rendered)
    ensures |r.lines| == |lines|
  {
    RunSteps((line: TextLine, y: real) => LineStep(env, line, textX, maxWidth, y), lines, textY)
  }

  /** All of `draw`: the preamble's shapes, then the text lines from the top of the area down. */
  function Render(env: Env, c: Content, width: real, height: real): (r: Rendered)
    ensures |r.lines| == |c.textLines|
    ensures Preamble(env, c, width, height).Err? ==>
      r.result == Err(Preamble(env, c, width, height).error) && r.lines == c.textLines
    ensures r.result.Ok? ==>
      Preamble(env, c, width, height).Ok? && Preamble(env, c, width, height).value.cmds <= r.result.value
  {
    match Preamble(env, c, width, height)
    case Err(e) => Rendered(Err(e), c.textLines, height, false)
    case Ok(b) =>
      var t := RenderLines(env, c.textLines, b.textX, b.maxWidth, height);
      t.(result := Prepend(b.cmds, t.result))
  }

  /**
   * Truncation: once the loop has stopped at a line or raised, the lines
   * after it are left as they are and draw nothing.
   */
  lemma {:induction false} RenderLinesHalts(env: Env, lines: seq<TextLine>, more: seq<TextLine>, textX: real, maxWidth: real, textY: real)
    requires var r := RenderLines(env, lines, textX, maxWidth, textY); r.stopped || r.result.Err?
    ensures var r := RenderLines(env, lines, textX, maxWidth, textY);
      RenderLines(env, lines + more, textX, maxWidth, textY) == r.(lines := r.lines + more)
    decreases |lines|
  {
    assert (lines + more)[0] == lines[0];
    assert (lines + more)[1..] == lines[1..] + more;
    var s := LineStep(env, lines[0], textX, maxWidth, textY);
    if s.Emitted? {
      RenderLinesHalts(env, lines[1..], more, textX, maxWidth, s.cursor);
      var r1 := RenderLines(env, lines[1..], textX, maxWidth, s.cursor);
      assert [s.line] + (r1.lines + more) == ([s.line] + r1.lines) + more;
    } else if s.Stopped? {
      assert [s.line] + (lines[1..] + more) == ([s.line] + lines[1..]) + more;
    }
  }

  /**
   * One more line after lines that neither stopped nor raised: its step
   * taken at the cursor where they ended decides the outcome.
   */
  lemma RunStepsSnoc(step: (TextLine, real) -> Step, lines: seq<TextLine>, line: TextLine, textY: real)
    requires var r := RunSteps(step, lines, textY); r.result.Ok? && !r.stopped
    ensures var r := RunSteps(step, lines, textY);
      RunSteps(step, lines + [line], textY) ==
        match step(line, r.cursor)
        case Failed(e) => Rendered(Err(e), r.lines + [line], r.cursor, false)
        case Stopped(l) => Rendered(r.result, r.lines + [l], r.cursor, true)
        case Emitted(cmds, y, l) => Rendered(Ok(r.result.value + cmds), r.lines + [l], y, false)
  {
    var r := RunSteps(step, lines, textY);
    RunStepsAppend(step, lines, [line], textY);
    var s := step(line, r.cursor);
    assert [line][0] == line && [line][1..] == [];
    if s.Stopped? {
      assert r.result.value + [] == r.result.value;
    } else if s.Emitted? {
      assert RunSteps(step, [line][1..], s.cursor) == Rendered(Ok([]), [], s.cursor, false);
      assert s.cmds + [] == s.cmds;
    }
  }

  /** `RunStepsSnoc` for the text loop of `draw`. */
  lemma RenderLinesSnoc(env: Env, lines: seq<TextLine>, line: TextLine, textX: real, maxWidth: real, textY: real)
    requires var r := RenderLines(env, lines, textX, maxWidth, textY); r.result.Ok? && !r.stopped
    ensures var r := RenderLines(env, lines, textX, maxWidth, textY);
      RenderLines(env, lines + [line], textX, maxWidth, textY) ==
        match LineStep(env, line, textX, maxWidth, r.cursor)
        case Failed(e) => Rendered(Err(e), r.lines + [line], r.cursor, false)
        case Stopped(l) => Rendered(r.result, r.lines + [l], r.cursor, true)
        case Emitted(cmds, y, l) => Rendered(Ok(r.result.value + cmds), r.lines + [l], y, false)
  {
    RunStepsSnoc((line: TextLine, y: real) => LineStep(env, line, textX, maxWidth, y), lines, line, textY);
  }

  /**
   * Lines are drawn in order: when the first lines neither stop nor fail,
   * running them and then the rest from where the cursor ended is the same
   * as running all of them.
   */
  lemma {:induction false} RunStepsAppend(step: (TextLine, real) -> Step, lines: seq<TextLine>, more: seq<TextLine>, textY: real)
    requires var r := RunSteps(step, lines, textY); r.result.Ok? && !r.stopped
    ensures var r := RunSteps(step, lines, textY);
      var r2 := RunSteps(step, more, r.cursor);
      RunSteps(step, lines + more, textY) == Rendered(Prepend(r.result.value, r2.result), r.lines + r2.lines, r2.cursor, r2.stopped)
    decreases |lines|
  {
    if lines == [] {
      assert lines + more == more;
      match RunSteps(step, more, textY).result
      case Ok(x) => assert [] + x == x;
      case Err(_) =>
    } else {
      assert (lines + more)[0] == lines[0];
      assert (lines + more)[1..] == lines[1..] + more;
      var s := step(lines[0], textY);
      RunStepsAppend(step, lines[1..], more, s.cursor);
      var r1 := RunSteps(step, lines[1..], s.cursor);
      var r2 := RunSteps(step, more, r1.cursor);
      match r2.result
      case Ok(x) => assert s.cmds + (r1.result.value + x) == (s.cmds + r1.result.value) + x;
      case Err(_) =>
    }
  }

  /** `RunStepsAppend` for the text loop of `draw`. */
  lemma RenderLinesAppend(env: Env, lines: seq<TextLine>, more: seq<TextLine>, textX: real, maxWidth: real, textY: real)
    requires var r := RenderLines(env, lines, textX, maxWidth, textY); r.result.Ok? && !r.stopped
    ensures var r := RenderLines(env, lines, textX, maxWidth, textY);
      var r2 := RenderLines(env, more, textX, maxWidth, r.cursor);
      RenderLines(env, lines + more, textX, maxWidth, textY) ==
        Rendered(Prepend(r.result.value, r2.result), r.lines + r2.lines, r2.cursor, r2.stopped)
  {
    RunStepsAppend((line: TextLine, y: real) => LineStep(env, line, textX, maxWidth, y), lines, more, textY);
  }

  /** Every line's font size, where given, is a non-negative number. */
  predicate NonNegativeSizes(lines: seq<TextLine>) {
    forall i :: 0 <= i < |lines| ==> SizeOf(lines[i].style).Ok? ==> SizeOf(lines[i].style).value >= 0.0
  }

  /** The shapes lie strictly below `top`, each strictly below the one before, and none below `bottom`. */
  predicate TopDown(cmds: seq<DrawCmd>, top: real, bottom: real) {
    && (forall k :: 0 <= k < |cmds| ==> cmds[k].DrawString? && bottom <= cmds[k].y < top)
    && (forall i, j :: 0 <= i < j < |cmds| ==> cmds[i].y > cmds[j].y)
  }

  /** Strings stacked in steps of d below `top` go strictly down, ending at `top - n·d`. */
  lemma StackedTopDown(cmds: seq<DrawCmd>, top: real, d: real)
    requires d > 0.0
    requires forall k :: 0 <= k < |cmds| ==> cmds[k].DrawString? && cmds[k].y == top - ((k + 1) as real) * d
    ensures TopDown(cmds, top, top - (|cmds| as real) * d)
  {
    StackedBetween(cmds, top, d);
    StackedDescending(cmds, top, d);
  }

  /** Strings stacked in steps of d below `top` lie below it and no lower than n steps. */
  lemma StackedBetween(cmds: seq<DrawCmd>, top: real, d: real)
    requires d > 0.0
    requires forall k :: 0 <= k < |cmds| ==> cmds[k].DrawString? && cmds[k].y == top - ((k + 1) as real) * d
    ensures forall k :: 0 <= k < |cmds| ==> cmds[k].DrawString? && top - (|cmds| as real) * d <= cmds[k].y < top
  {
    forall k | 0 <= k < |cmds| ensures cmds[k].DrawString? && top - (|cmds| as real) * d <= cmds[k].y < top {
      StepBelow(k, |cmds|, top, d, cmds[k].y);
    }
  }

  /** Strings stacked in steps of d go strictly down. */
  lemma StackedDescending(cmds: seq<DrawCmd>, top: real, d: real)
    requires d > 0.0
    requires forall k :: 0 <= k < |cmds| ==> cmds[k].DrawString? && cmds[k].y == top - ((k + 1) as real) * d
    ensures forall i, j :: 0 <= i < j < |cmds| ==> cmds[i].DrawString? && cmds[j].DrawString? && cmds[i].y > cmds[j].y
  {
    forall i, j | 0 <= i < j < |cmds| ensures cmds[i].DrawString? && cmds[j].DrawString? && cmds[i].y > cmds[j].y {
      StepsApart(i, j, top, d, cmds[i].y, cmds[j].y);
    }
  }

  /** y, the (k+1)-th step of height d below `top`, lies below `top` and no lower than the n-th. */
  lemma StepBelow(k: nat, n: nat, top: real, d: real, y: real)
    requires k < n && d > 0.0 && y == top - ((k + 1) as real) * d
    ensures top - (n as real) * d <= y < top
  {
    ScaleLess(0.0, (k + 1) as real, d);
    ScaleAtMost((k + 1) as real, n as real, d);
  }

  /** A later step of height d below `top` is strictly lower. */
  lemma StepsApart(i: nat, j: nat, top: real, d: real, yi: real, yj: real)
    requires i < j && d > 0.0
    requires yi == top - ((i + 1) as real) * d && yj == top - ((j + 1) as real) * d
    ensures yi > yj
  {
    ScaleLess((i + 1) as real, (j + 1) as real, d);
  }

  lemma ScaleAtMost(a: real, b: real, c: real)
    requires a <= b && c >= 0.0
    ensures a * c <= b * c
  {
    assert b * c - a * c == (b - a) * c;
  }

  lemma ScaleLess(a: real, b: real, c: real)
    requires a < b && c > 0.0
    ensures a * c < b * c
  {
    assert b * c - a * c == (b - a) * c;
  }

  lemma PlaceLineTopDown(line: TextLine, size: real, textX: real, textY: real)
    requires size >= 0.0
    ensures var s := PlaceLine(line, size, textX, textY);
      s.Emitted? ==> TopDown(s.cmds, textY, s.cursor)
  {
    var s := PlaceLine(line, size, textX, textY);
    if s.Emitted? {
      StackedTopDown(s.cmds, textY, size + 1.0);
    }
  }

  lemma WrapStepTopDown(env: Env, line: TextLine, textX: real, maxWidth: real, textY: real, size: real)
    requires size >= 0.0
    ensures var s := WrapStep(env, line, textX, maxWidth, textY, size);
      s.Emitted? ==> TopDown(s.cmds, textY, s.cursor)
  {
    var font := FontOf(line.style);
    if font.Ok? {
      var wrapped := WrapTextResult(env, line.text, maxWidth, font.value, size);
      if wrapped.Ok? {
        StackedIsTopDown(textX, textY, wrapped.value, size, line.style);
      }
    }
  }

  lemma StackedIsTopDown(x: real, top: real, pieces: seq<string>, size: real, style: Style)
    requires size >= 0.0
    ensures TopDown(Stacked(x, top, pieces, size, style), top, top - (|pieces| as real) * (size + 1.0))
  {
    var cmds := Stacked(x, top, pieces, size, style);
    var d := size + 1.0;
    forall k | 0 <= k < |cmds| ensures cmds[k].DrawString? && cmds[k].y == top - ((k + 1) as real) * d { }
    StackedTopDown(cmds, top, d);
    assert (|cmds| as real) * d == (|pieces| as real) * (size + 1.0);
  }

  lemma StepTopDown(env: Env, line: TextLine, textX: real, maxWidth: real, textY: real)
    requires SizeOf(line.style).Ok? ==> SizeOf(line.style).value >= 0.0
    ensures var s := LineStep(env, line, textX, maxWidth, textY);
      s.Emitted? ==> TopDown(s.cmds, textY, s.cursor)
  {
    var sizeOf := SizeOf(line.style);
    if sizeOf.Ok? {
      var size := sizeOf.value;
      if IsWrap(line) {
        WrapStepTopDown(env, line, textX, maxWidth, textY, size);
      } else if IsScale(line) {
        var font := FontOf(line.style);
        if font.Ok? && ScaleTerminates(env, line.text, maxWidth, font.value, size) {
          var scaled := ScaledSize(env, line.text, maxWidth, font.value, size);
          PlaceLineTopDown(line.(style := line.style["fontSize" := JNum(scaled)]), scaled, textX, textY);
        }
      } else {
        PlaceLineTopDown(line, size, textX, textY);
      }
    }
  }

  /** Two top-down runs, one above `mid` and one below it, make one top-down run. */
  lemma TopDownConcat(a: seq<DrawCmd>, b: seq<DrawCmd>, top: real, mid: real, bottom: real)
    requires TopDown(a, top, mid) && TopDown(b, mid, bottom) && bottom <= mid <= top
    ensures TopDown(a + b, top, bottom)
  {
    var all := a + b;
    forall k | 0 <= k < |all| ensures all[k].DrawString? && bottom <= all[k].y < top {
      if k >= |a| {
        assert all[k] == b[k - |a|];
      } else {
        assert all[k] == a[k];
      }
    }
    forall i, j | 0 <= i < j < |all| ensures all[i].y > all[j].y {
      if j >= |a| && i < |a| {
        assert all[j] == b[j - |a|];
      }
    }
  }

  /**
   * The text cursor only moves down: with non-negative font sizes, the
   * strings of the text loop go strictly top-down, all below the starting
   * cursor and none below where it ends.
   */
  lemma {:induction false} RenderTopDown(env: Env, lines: seq<TextLine>, textX: real, maxWidth: real, textY: real)
    requires NonNegativeSizes(lines)
    ensures var r := RenderLines(env, lines, textX, maxWidth, textY);
      r.result.Ok? ==> r.cursor <= textY && TopDown(r.result.value, textY, r.cursor)
    decreases |lines|
  {
    if lines != [] {
      var s := LineStep(env, lines[0], textX, maxWidth, textY);
      StepTopDown(env, lines[0], textX, maxWidth, textY);
      if s.Emitted? {
        assert NonNegativeSizes(lines[1..]) by {
          forall i | 0 <= i < |lines| - 1 ensures lines[1..][i] == lines[i + 1] { }
        }
        RenderTopDown(env, lines[1..], textX, maxWidth, s.cursor);
        assert |s.cmds| >= 1 by {
          StepCursor(env, lines[0], textX, maxWidth, textY);
        }
        assert s.cursor <= s.cmds[0].y < textY;
        var r := RenderLines(env, lines[1..], textX, maxWidth, s.cursor);
        if r.result.Ok? {
          TopDownConcat(s.cmds, r.result.value, textY, s.cursor, r.cursor);
        }
      }
    }
  }
}
