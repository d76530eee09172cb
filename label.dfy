/**
 * `DefaultLabel`: a label holding text lines with per-line formats and
 * shrink policies, an optional QR code, icons and an optional index, and
 * its `draw` method, which adds shapes to a label drawing. The drawing is the
 * sequence of shapes added. Each loop of the source is a method here, proved
 * equal to the functions of module Layout.
 */
module Label {
  import opened Values
  import opened Backend
  import opened Fit
  import opened Qr
  import opened Util
  import opened Layout

  /**
   * The format of line idx: every entry of the text format read with
   * `safe_get(v, idx)`. It fails with IndexError exactly when some list-valued
   * entry has no item idx.
   */
  function LineFormat(textFormat: Option<Style>, idx: nat): (r: Result<Style>)
    ensures textFormat.None? ==> r == Ok(map[])
    ensures textFormat.Some? ==>
      (r.Ok? <==> forall k :: k in textFormat.value ==> SafeGet(textFormat.value[k], idx).Ok?)
    ensures r.Err? ==> r.error == IndexError
    ensures r.Ok? && textFormat.Some? ==>
      && r.value.Keys == textFormat.value.Keys
      && (forall k :: k in r.value ==>
            (textFormat.value[k].JList? ==> r.value[k] == textFormat.value[k].items[idx])
            && (!textFormat.value[k].JList? ==> r.value[k] == textFormat.value[k]))
  {
    match textFormat
    case None => Ok(map[])
    case Some(tf) =>
      if forall k :: k in tf ==> SafeGet(tf[k], idx).Ok? then
        Ok(map k | k in tf :: SafeGet(tf[k], idx).value)
      else Err(IndexError)
  }

  /** The source's loop over `text_format.iteritems()` for line idx. */
  method ResolveFormat(textFormat: Option<Style>, idx: nat) returns (r: Result<Style>)
    ensures r == LineFormat(textFormat, idx)
  {
    var fmt: Style := map[];
    if textFormat.Some? {
      var tf := textFormat.value;
      var remaining := tf.Keys;
      while remaining != {}
        invariant remaining <= tf.Keys
        invariant fmt.Keys == tf.Keys - remaining
        invariant forall k :: k in fmt ==> SafeGet(tf[k], idx) == Ok(fmt[k])
        decreases remaining
      {
        var k :| k in remaining;
        var v := SafeGet(tf[k], idx);
        if v.Err? {
          return Err(v.error);
        }
        fmt := fmt[k := v.value];
        remaining := remaining - {k};
      }
      assert fmt == map k | k in tf :: SafeGet(tf[k], idx).value;
    }
    r := Ok(fmt);
  }

  /**
   * The text lines the constructor stores: line i with the format of line i
   * and `safe_get(text_shrink, i)`, in order. Construction fails with
   * IndexError exactly when some line has no format item or no shrink item.
   */
  function TextLines(lines: seq<string>, textFormat: Option<Style>, textShrink: Json): (r: Result<seq<TextLine>>)
    ensures r.Ok? <==> forall i :: 0 <= i < |lines| ==> LineFormat(textFormat, i).Ok? && SafeGet(textShrink, i).Ok?
    ensures r.Err? ==> r.error == IndexError
    ensures r.Ok? ==> |r.value| == |lines|
    ensures r.Ok? ==> forall i :: 0 <= i < |lines| ==>
      r.value[i] == TextLine(lines[i], LineFormat(textFormat, i).value, SafeGet(textShrink, i).value)
    decreases |lines|
  {
    if lines == [] then Ok([])
    else
      var i := |lines| - 1;
      var prefix :- TextLines(lines[..i], textFormat, textShrink);
      var fmt :- LineFormat(textFormat, i);
      var shrink :- SafeGet(textShrink, i);
      Ok(prefix + [TextLine(lines[i], fmt, shrink)])
  }

  /** A prefix of the lines is stored as the first lines. */
  lemma {:induction false} TextLinesPrefix(lines: seq<string>, textFormat: Option<Style>, textShrink: Json, n: nat)
    requires n <= |lines|
    requires TextLines(lines, textFormat, textShrink).Ok?
    ensures TextLines(lines[..n], textFormat, textShrink).Ok?
    ensures TextLines(lines[..n], textFormat, textShrink).value == TextLines(lines, textFormat, textShrink).value[..n]
  {
    var all := TextLines(lines, textFormat, textShrink).value;
    var pre := TextLines(lines[..n], textFormat, textShrink);
    assert forall i :: 0 <= i < n ==> lines[..n][i] == lines[i];
    assert pre.Ok?;
    assert forall i :: 0 <= i < n ==> pre.value[i] == all[i];
  }

  /** A label of the kind `DefaultLabel` builds. */
  class DefaultLabel {
    var textLines: seq<TextLine>
    var qrData: Option<string>
    var qrFormat: Style
    var icons: seq<string>
    var index: Option<string>
    var indexFormat: Style

    function Contents(): Content
      reads this
    {
      Content(textLines, qrData, qrFormat, icons, index, indexFormat)
    }

    /** A label with nothing in it. */
    constructor ()
      ensures Contents() == Content([], None, map[], [], None, map[])
    {
      textLines := [];
      qrData := None;
      qrFormat := map[];
      icons := [];
      index := None;
      indexFormat := map[];
    }

    /** `add_text`: the line goes after the existing ones. */
    method AddText(text: string, fmt: Style, shrink: Json)
      modifies this`textLines
      ensures textLines == old(textLines) + [TextLine(text, fmt, shrink)]
    {
      textLines := textLines + [TextLine(text, fmt, shrink)];
    }

    /** `set_qr`: a missing format is an empty one. */
    method SetQr(data: Option<string>, fmt: Option<Style>)
      modifies this`qrData, this`qrFormat
      ensures qrData == data && qrFormat == fmt.GetOr(map[])
    {
      qrData := data;
      qrFormat := fmt.GetOr(map[]);
    }

    /** `add_icon`: an icon file that does not exist fails the assertion and is not added. */
    method AddIcon(icon: string, fileExists: string -> bool) returns (r: Result<()>)
      modifies this`icons
      ensures r.Ok? <==> fileExists(icon)
      ensures r.Err? ==> r.error == AssertionError && icons == old(icons)
      ensures r.Ok? ==> icons == old(icons) + [icon]
    {
      if !fileExists(icon) {
        return Err(AssertionError);
      }
      icons := icons + [icon];
      r := Ok(());
    }

    /** `set_index`: the index is always drawn right-aligned ("textAnchor" is "end"). */
    method SetIndex(idx: Option<string>, fmt: Option<Style>)
      modifies this`index, this`indexFormat
      ensures index == idx
      ensures indexFormat == fmt.GetOr(map[])["textAnchor" := JStr("end")]
    {
      index := idx;
      indexFormat := fmt.GetOr(map[])["textAnchor" := JStr("end")];
    }

    /**
     * `draw(label, width, height)`: the shapes `Render` describes; the
     * scaled font sizes of "scale" lines are written back into the stored
     * line formats, as the source's assignment into `fmt` does.
     */
    method Draw(env: Env, width: real, height: real) returns (r: Result<seq<DrawCmd>>)
      modifies this`textLines
      ensures r == Render(env, old(Contents()), width, height).result
      ensures textLines == Render(env, old(Contents()), width, height).lines
    {
      var pre := DrawPreamble(env, Contents(), width, height);
      if pre.Err? {
        return Err(pre.error);
      }
      var b := pre.value;
      var t := DrawLines(env, textLines, b.textX, b.maxWidth, height);
      textLines := t.lines;
      r := Prepend(b.cmds, t.result);
    }
  }

  /** Stored text lines of a label built from these arguments, or the exception. */
  function StoredLines(textLines: Option<seq<string>>, textFormat: Option<Style>, textShrink: Json): Result<seq<TextLine>> {
    TextLines(textLines.GetOr([]), textFormat, textShrink)
  }

  /**
   * `DefaultLabel(text_lines, text_format, text_shrink, qr_data, qr_format,
   * icons, index, index_format)`. It fails with IndexError when some line
   * lacks a format or shrink item, and otherwise with AssertionError when
   * some icon file does not exist.
   */
  method Create(textLines: Option<seq<string>>, textFormat: Option<Style>, textShrink: Json,
                qrData: Option<string>, qrFormat: Option<Style>, icons: Option<seq<string>>,
                index: Option<string>, indexFormat: Option<Style>, fileExists: string -> bool)
    returns (r: Result<DefaultLabel>)
    ensures var stored := StoredLines(textLines, textFormat, textShrink);
      r.Ok? <==> stored.Ok? && forall k :: 0 <= k < |icons.GetOr([])| ==> fileExists(icons.GetOr([])[k])
    ensures r.Err? ==>
      r.error == (if StoredLines(textLines, textFormat, textShrink).Err? then IndexError else AssertionError)
    ensures r.Ok? ==> fresh(r.value)
    ensures r.Ok? ==>
      r.value.Contents() == Content(StoredLines(textLines, textFormat, textShrink).value,
                                    qrData, qrFormat.GetOr(map[]), icons.GetOr([]),
                                    index, indexFormat.GetOr(map[])["textAnchor" := JStr("end")])
  {
    var lbl := new DefaultLabel();
    ghost var stored := StoredLines(textLines, textFormat, textShrink);
    var added := AddLines(lbl, textLines.GetOr([]), textFormat, textShrink);
    if added.Err? {
      return Err(added.error);
    }
    assert [] + stored.value == stored.value;
    assert lbl.textLines == stored.value;
    lbl.SetQr(qrData, qrFormat);
    var placed := AddIcons(lbl, icons.GetOr([]), fileExists);
    if placed.Err? {
      return Err(placed.error);
    }
    lbl.SetIndex(index, indexFormat);
    r := Ok(lbl);
  }

  /** One more line whose format and shrink items exist extends the stored lines by that line. */
  lemma TextLinesSnoc(lines: seq<string>, textFormat: Option<Style>, textShrink: Json, i: nat)
    requires i < |lines|
    requires TextLines(lines[..i], textFormat, textShrink).Ok?
    requires LineFormat(textFormat, i).Ok? && SafeGet(textShrink, i).Ok?
    ensures TextLines(lines[..i + 1], textFormat, textShrink)
         == Ok(TextLines(lines[..i], textFormat, textShrink).value
               + [TextLine(lines[i], LineFormat(textFormat, i).value, SafeGet(textShrink, i).value)])
  {
    assert lines[..i + 1][..i] == lines[..i];
  }

  /** The constructor's loop over `text_lines`. */
  method AddLines(lbl: DefaultLabel, lines: seq<string>, textFormat: Option<Style>, textShrink: Json) returns (r: Result<()>)
    modifies lbl`textLines
    ensures r.Ok? <==> TextLines(lines, textFormat, textShrink).Ok?
    ensures r.Err? ==> r.error == IndexError
    ensures r.Ok? ==> lbl.textLines == old(lbl.textLines) + TextLines(lines, textFormat, textShrink).value
  {
    var i := 0;
    while i < |lines|
      invariant 0 <= i <= |lines|
      invariant TextLines(lines[..i], textFormat, textShrink).Ok?
      invariant lbl.textLines == old(lbl.textLines) + TextLines(lines[..i], textFormat, textShrink).value
    {
      var fmt := ResolveFormat(textFormat, i);
      var shrink := SafeGet(textShrink, i);
      if fmt.Err? || shrink.Err? {
        return Err(IndexError);
      }
      TextLinesSnoc(lines, textFormat, textShrink, i);
      lbl.AddText(lines[i], fmt.value, shrink.value);
      i := i + 1;
    }
    assert lines[..i] == lines;
    r := Ok(());
  }

  /** The constructor's loop over `icons`. */
  method AddIcons(lbl: DefaultLabel, icons: seq<string>, fileExists: string -> bool) returns (r: Result<()>)
    modifies lbl`icons
    ensures r.Ok? <==> forall k :: 0 <= k < |icons| ==> fileExists(icons[k])
    ensures r.Err? ==> r.error == AssertionError
    ensures r.Ok? ==> lbl.icons == old(lbl.icons) + icons
  {
    var j := 0;
    while j < |icons|
      invariant 0 <= j <= |icons|
      invariant forall k :: 0 <= k < j ==> fileExists(icons[k])
      invariant lbl.icons == old(lbl.icons) + icons[..j]
    {
      var placed := lbl.AddIcon(icons[j], fileExists);
      if placed.Err? {
        return Err(AssertionError);
      }
      assert icons[..j + 1] == icons[..j] + [icons[j]];
      j := j + 1;
    }
    assert icons[..j] == icons;
    r := Ok(());
  }

  /** The start of `draw`: the QR code, the index and the icon loop. */
  method DrawPreamble(env: Env, c: Content, width: real, height: real) returns (r: Result<Budget>)
    ensures r == Preamble(env, c, width, height)
  {
    var textX := 0.0;
    var maxWidth := width;
    var maxHeight := height;
    var out: seq<DrawCmd> := [];
    if c.qrData.Some? {
      var made := MakeQr(c.qrData.value, c.qrFormat, env.deflate);
      if made.Err? {
        return Err(made.error);
      }
      var widget := made.value;
      out := out + [DrawQr(widget)];
      var barWidth := BarWidth(widget, env);
      if barWidth.Err? {
        return Err(barWidth.error);
      }
      textX := barWidth.value + 1.0;
      maxWidth := maxWidth - textX;
    }
    if c.index.Some? {
      var font := FontOf(c.indexFormat);
      if font.Err? {
        return Err(font.error);
      }
      var size := SizeOf(c.indexFormat);
      if size.Err? {
        return Err(size.error);
      }
      var indexWidth := StringWidth(env, c.index.value, font.value, size.value);
      maxWidth := maxWidth - (indexWidth + 1.0);
      out := out + [DrawString(width, height - size.value, c.index.value, c.indexFormat)];
    }
    ghost var beforeIcons := out;
    if |c.icons| > 0 {
      var n := |c.icons|;
      var iconX := width - (IconSize + 1.0) * (n as real);
      maxHeight := maxHeight - IconSize;
      var k := 0;
      while k < n
        invariant 0 <= k <= n
        invariant iconX == width - (IconSize + 1.0) * (n as real) + (IconSize + 1.0) * (k as real)
        invariant out == beforeIcons + IconRow(c.icons, width)[..k]
      {
        out := out + [DrawImage(iconX, 1.0, IconSize, IconSize, c.icons[k])];
        assert IconRow(c.icons, width)[..k + 1] == IconRow(c.icons, width)[..k] + [IconRow(c.icons, width)[k]];
        iconX := iconX + IconSize + 1.0;
        k := k + 1;
      }
      assert IconRow(c.icons, width)[..n] == IconRow(c.icons, width);
    }
    r := Ok(Budget(textX, maxWidth, maxHeight, out));
  }

  /** One pass of the text loop of `draw`. */
  method DrawLine(env: Env, line: TextLine, textX: real, maxWidth: real, textY: real) returns (s: Step)
    ensures s == LineStep(env, line, textX, maxWidth, textY)
  {
    var sizeOf := SizeOf(line.style);
    if sizeOf.Err? {
      return Failed(sizeOf.error);
    }
    var size := sizeOf.value;
    if IsWrap(line) {
      s := DrawWrapped(env, line, textX, maxWidth, textY, size);
    } else if IsScale(line) {
      var font := FontOf(line.style);
      if font.Err? {
        return Failed(font.error);
      }
      if !ScaleTerminates(env, line.text, maxWidth, font.value, size) {
        return Failed(NonTermination);
      }
      var scaled := ScaleFontSize(env, line.text, maxWidth, font.value, size);
      s := PlaceLine(line.(style := line.style["fontSize" := JNum(scaled)]), scaled, textX, textY);
    } else {
      s := PlaceLine(line, size, textX, textY);
    }
  }

  /** The loop of the "wrap" branch: each piece one step of `size + 1` below the previous. */
  method DrawPieces(textX: real, textY: real, pieces: seq<string>, size: real, style: Style) returns (out: seq<DrawCmd>, y: real)
    ensures out == Stacked(textX, textY, pieces, size, style)
    ensures y == textY - (|pieces| as real) * (size + 1.0)
  {
    ghost var stacked := Stacked(textX, textY, pieces, size, style);
    y := textY;
    out := [];
    var k := 0;
    while k < |pieces|
      invariant 0 <= k <= |pieces|
      invariant y == textY - (k as real) * (size + 1.0)
      invariant out == stacked[..k]
    {
      StackedStep(textX, textY, pieces, size, style, k);
      y := y - (size + 1.0);
      out := out + [DrawString(textX, y, pieces[k], style)];
      k := k + 1;
    }
    assert stacked[..k] == stacked;
  }

  /** The "wrap" branch: wrap, check the height, then the loop over the pieces. */
  method DrawWrapped(env: Env, line: TextLine, textX: real, maxWidth: real, textY: real, size: real) returns (s: Step)
    ensures s == WrapStep(env, line, textX, maxWidth, textY, size)
  {
    var font := FontOf(line.style);
    if font.Err? {
      return Failed(font.error);
    }
    var wrapped := WrapText(env, line.text, maxWidth, font.value, size);
    if wrapped.Err? {
      return Failed(wrapped.error);
    }
    var pieces := wrapped.value;
    if size * (|pieces| as real) > textY {
      return Stopped(line);
    }
    var out, y := DrawPieces(textX, textY, pieces, size, line.style);
    s := Emitted(out, y, line);
  }

  /** The text loop of `draw`: lines top-down from `top` until one does not fit. */
  method DrawLines(env: Env, lines: seq<TextLine>, textX: real, maxWidth: real, top: real) returns (r: Rendered)
    ensures r == RenderLines(env, lines, textX, maxWidth, top)
  {
    var out: seq<DrawCmd> := [];
    var left: seq<TextLine> := [];
    var textY := top;
    var i := 0;
    assert lines[..0] == [];
    while i < |lines|
      invariant 0 <= i <= |lines|
      invariant RenderLines(env, lines[..i], textX, maxWidth, top) == Rendered(Ok(out), left, textY, false)
    {
      var step := DrawLine(env, lines[i], textX, maxWidth, textY);
      RenderLinesSnoc(env, lines[..i], lines[i], textX, maxWidth, top);
      assert lines[..i] + [lines[i]] == lines[..i + 1];
      if !step.Emitted? {
        RenderLinesHalts(env, lines[..i + 1], lines[i + 1..], textX, maxWidth, top);
        assert lines[..i + 1] + lines[i + 1..] == lines;
        if step.Failed? {
          return Rendered(Err(step.error), left + [lines[i]] + lines[i + 1..], textY, false);
        }
        return Rendered(Ok(out), left + [step.line] + lines[i + 1..], textY, true);
      }
      out := out + step.cmds;
      left := left + [step.line];
      textY := step.cursor;
      i := i + 1;
    }
    assert lines[..i] == lines;
    r := Rendered(Ok(out), left, textY, false);
  }
}
