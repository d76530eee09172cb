/**
 * The older stand-alone script's `DefaultLabel`: per-line formats without
 * shrink policies, a QR code at the left, every text line drawn one step
 * below the previous with no fit check, and 10-point icons; and its copy of
 * `make_qr`'s compression rule.
 */
module Legacy {
  import opened Values
  import opened Backend
  import opened Qr
  import opened Layout
  import opened Label
  import opened Util

  /** A text line of the older label: its string and style map. */
  datatype PlainLine = PlainLine(text: string, style: Style)

  datatype LegacyContent = LegacyContent(
    textLines: seq<PlainLine>,
    qrData: Option<string>,
    qrFormat: Option<Style>,
    icons: seq<string>)

  /** The older per-line format rule: a list or tuple is indexed, anything else applies to every line. */
  function LegacyLineFormat(textFormat: Option<Style>, idx: nat): Result<Style> {
    match textFormat
    case None => Ok(map[])
    case Some(tf) =>
      if forall k :: k in tf && tf[k].JList? ==> idx < |tf[k].items| then
        Ok(map k | k in tf :: if tf[k].JList? then tf[k].items[idx] else tf[k])
      else Err(IndexError)
  }

  /** The older rule is the library's `safe_get` rule. */
  lemma LegacyLineFormatAgrees(textFormat: Option<Style>, idx: nat)
    ensures LegacyLineFormat(textFormat, idx) == LineFormat(textFormat, idx)
  {
    if textFormat.Some? {
      var tf := textFormat.value;
      var r := LineFormat(textFormat, idx);
      if r.Ok? {
        assert LegacyLineFormat(textFormat, idx).value == r.value;
      } else {
        var k :| k in tf && SafeGet(tf[k], idx).Err?;
        assert tf[k].JList? && idx >= |tf[k].items|;
      }
    }
  }

  /** The lines the older constructor stores, or IndexError when a list-valued format entry is too short. */
  function LegacyStored(lines: seq<string>, textFormat: Option<Style>): Result<seq<PlainLine>> {
    if forall i :: 0 <= i < |lines| ==> LegacyLineFormat(textFormat, i).Ok? then
      Ok(seq(|lines|, i requires 0 <= i < |lines| => PlainLine(lines[i], LegacyLineFormat(textFormat, i).value)))
    else Err(IndexError)
  }

  /**
   * Apart from the shrink policy, the older constructor stores the lines
   * the library's does, and fails on the same inputs.
   */
  lemma LegacyStoredAgrees(lines: seq<string>, textFormat: Option<Style>, shrink: Json)
    requires !shrink.JList?
    ensures LegacyStored(lines, textFormat).Ok? <==> TextLines(lines, textFormat, shrink).Ok?
    ensures LegacyStored(lines, textFormat).Ok? ==>
      forall i :: 0 <= i < |lines| ==>
        && LegacyStored(lines, textFormat).value[i].text == TextLines(lines, textFormat, shrink).value[i].text
        && LegacyStored(lines, textFormat).value[i].style == TextLines(lines, textFormat, shrink).value[i].style
  {
    forall i | 0 <= i < |lines| {
      LegacyLineFormatAgrees(textFormat, i);
    }
  }

  class LegacyLabel {
    var textLines: seq<PlainLine>
    var qrData: Option<string>
    var qrFormat: Option<Style>
    var icons: seq<string>

    function Contents(): LegacyContent
      reads this
    {
      LegacyContent(textLines, qrData, qrFormat, icons)
    }

    constructor ()
      ensures Contents() == LegacyContent([], None, None, [])
    {
      textLines := [];
      qrData := None;
      qrFormat := None;
      icons := [];
    }

    method AddText(text: string, fmt: Style)
      modifies this`textLines
      ensures textLines == old(textLines) + [PlainLine(text, fmt)]
    {
      textLines := textLines + [PlainLine(text, fmt)];
    }

    /** `set_qr`: unlike the library, a missing format stays missing. */
    method SetQr(data: Option<string>, fmt: Option<Style>)
      modifies this`qrData, this`qrFormat
      ensures qrData == data && qrFormat == fmt
    {
      qrData := data;
      qrFormat := fmt;
    }

    /** `add_icons`: adds one icon file, which must exist. */
    method AddIcons(icon: string, fileExists: string -> bool) returns (r: Result<()>)
      modifies this`icons
      ensures r.Ok? <==> fileExists(icon)
      ensures r.Err? ==> r.error == AssertionError && icons == old(icons)
      ensures r.Ok? ==> icons == old(icons) + [icon]
    {
      if !fileExists(icon) {
        return Err(AssertionError);
      }
      icons := icons + [icon];
      r := Ok(());
    }

    /** `draw`: the shapes LegacyRender describes; the label itself is not changed. */
    method Draw(env: Env, width: real, height: real) returns (r: Result<seq<DrawCmd>>)
      ensures r == LegacyRender(env, Contents(), width, height)
    {
      var out: seq<DrawCmd> := [];
      var textX := 0.0;
      if qrData.Some? {
        if qrFormat.None? {
          return Err(TypeError);
        }
        var made := MakeQr(qrData.value, qrFormat.value, env.deflate);
        if made.Err? {
          return Err(made.error);
        }
        var widget := made.value;
        out := out + [DrawQr(widget)];
        var barWidth := BarWidth(widget, env);
        if barWidth.Err? {
          return Err(barWidth.error);
        }
        textX := barWidth.value + 1.0;
      }
      assert LegacyTextX(env, Contents()) == Ok(textX);
      var text := DrawLegacyText(textLines, textX, height);
      if text.Err? {
        return Err(text.error);
      }
      var iconCmds := DrawLegacyIcons(icons, width);
      assert out == (if qrData.Some? then [DrawQr(MakeQr(qrData.value, qrFormat.value, env.deflate).value)] else []);
      assert LegacyText(Contents().textLines, textX, height) == text;
      r := Ok(out + text.value + iconCmds);
    }
  }

  /** The text loop of the older `draw`: one string per line, each `size + 1` below the previous. */
  method DrawLegacyText(lines: seq<PlainLine>, textX: real, top: real) returns (r: Result<seq<DrawCmd>>)
    ensures r == LegacyText(lines, textX, top)
  {
    var out: seq<DrawCmd> := [];
    var textY := top;
    var i := 0;
    PrependNil(LegacyText(lines, textX, top));
    assert lines[0..] == lines;
    while i < |lines|
      invariant 0 <= i <= |lines|
      invariant LegacyText(lines, textX, top) == Prepend(out, LegacyText(lines[i..], textX, textY))
    {
      var size := SizeOf(lines[i].style);
      if size.Err? {
        assert LegacyText(lines[i..], textX, textY) == Err(size.error);
        return Err(size.error);
      }
      textY := textY - (size.value + 1.0);
      var cmd := DrawString(textX, textY, lines[i].text, lines[i].style);
      assert lines[i..][1..] == lines[i + 1..];
      PrependAssoc(out, [cmd], LegacyText(lines[i + 1..], textX, textY));
      out := out + [cmd];
      i := i + 1;
    }
    assert out + [] == out;
    r := Ok(out);
  }

  /** The icon loop of the older `draw`: one 10-point square per icon, left to right. */
  method DrawLegacyIcons(icons: seq<string>, width: real) returns (out: seq<DrawCmd>)
    ensures out == LegacyIcons(icons, width)
  {
    var n := |icons|;
    var iconX := width - 10.0 * (n as real);
    var k := 0;
    out := [];
    while k < n
      invariant 0 <= k <= n
      invariant iconX == width - 10.0 * (n as real) + 10.0 * (k as real)
      invariant out == LegacyIcons(icons, width)[..k]
    {
      out := out + [DrawImage(iconX, 10.0, 10.0, 10.0, icons[k])];
      assert LegacyIcons(icons, width)[..k + 1] == LegacyIcons(icons, width)[..k] + [LegacyIcons(icons, width)[k]];
      iconX := iconX + 10.0;
      k := k + 1;
    }
    assert LegacyIcons(icons, width)[..n] == LegacyIcons(icons, width);
  }

  lemma PrependAssoc(a: seq<DrawCmd>, b: seq<DrawCmd>, r: Result<seq<DrawCmd>>)
    ensures Prepend(a, Prepend(b, r)) == Prepend(a + b, r)
  {
    if r.Ok? {
      assert a + (b + r.value) == (a + b) + r.value;
    }
  }

  lemma PrependNil(r: Result<seq<DrawCmd>>)
    ensures Prepend([], r) == r
  {
    if r.Ok? {
      assert [] + r.value == r.value;
    }
  }

  /**
   * The older constructor. Its icon loop reads `self.add_icon[i]`, an
   * attribute the class does not have (it is called `add_icons`), so a
   * non-empty icon list raises AttributeError.
   */
  method LegacyCreate(textLines: Option<seq<string>>, textFormat: Option<Style>,
                      qrData: Option<string>, qrFormat: Option<Style>, icons: Option<seq<string>>)
    returns (r: Result<LegacyLabel>)
    ensures r.Ok? <==> LegacyStored(textLines.GetOr([]), textFormat).Ok? && |icons.GetOr([])| == 0
    ensures r.Err? ==>
      r.error == (if LegacyStored(textLines.GetOr([]), textFormat).Err? then IndexError else AttributeError("add_icon"))
    ensures r.Ok? ==> fresh(r.value)
    ensures r.Ok? ==>
      r.value.Contents() == LegacyContent(LegacyStored(textLines.GetOr([]), textFormat).value, qrData, qrFormat, [])
  {
    var lbl := new LegacyLabel();
    var lines := textLines.GetOr([]);
    var i := 0;
    while i < |lines|
      invariant 0 <= i <= |lines|
      invariant |lbl.textLines| == i
      invariant forall j :: 0 <= j < i ==>
        LegacyLineFormat(textFormat, j).Ok? && lbl.textLines[j] == PlainLine(lines[j], LegacyLineFormat(textFormat, j).value)
      invariant lbl.qrData == None && lbl.qrFormat == None && lbl.icons == []
    {
      var fmt := LegacyLineFormat(textFormat, i);
      if fmt.Err? {
        return Err(IndexError);
      }
      lbl.AddText(lines[i], fmt.value);
      i := i + 1;
    }
    assert LegacyStored(lines, textFormat).Ok?;
    assert lbl.textLines == LegacyStored(lines, textFormat).value;
    lbl.SetQr(qrData, qrFormat);
    if |icons.GetOr([])| > 0 {
      return Err(AttributeError("add_icon"));
    }
    r := Ok(lbl);
  }

  /** The text loop of the older `draw`: every line, each `size + 1` below the previous. */
  function LegacyText(lines: seq<PlainLine>, textX: real, textY: real): (r: Result<seq<DrawCmd>>)
    ensures r.Ok? ==> |r.value| == |lines|
    decreases |lines|
  {
    if lines == [] then Ok([])
    else
      var size :- SizeOf(lines[0].style);
      var y := textY - (size + 1.0);
      Prepend([DrawString(textX, y, lines[0].text, lines[0].style)], LegacyText(lines[1..], textX, y))
  }

  /** The icon row of the older `draw`: 10-point squares at y = 10, ending at the right edge. */
  function LegacyIcons(icons: seq<string>, width: real): (r: seq<DrawCmd>)
    ensures |r| == |icons|
  {
    var n := |icons| as real;
    seq(|icons|, k requires 0 <= k < |icons| => DrawImage(width - 10.0 * n + 10.0 * (k as real), 10.0, 10.0, 10.0, icons[k]))
  }

  /** Where the older `draw` starts its text: right of the QR code, whose format cannot be missing. */
  function LegacyTextX(env: Env, c: LegacyContent): (r: Result<real>)
    ensures c.qrData.None? ==> r == Ok(0.0)
    ensures c.qrData.Some? && c.qrFormat.None? ==> r == Err(TypeError)
    ensures c.qrData.Some? && r.Ok? ==> c.qrFormat.Some? && MakeQr(c.qrData.value, c.qrFormat.value, env.deflate).Ok?
  {
    match c.qrData
    case None => Ok(0.0)
    case Some(data) =>
      if c.qrFormat.None? then Err(TypeError)
      else
        var widget :- MakeQr(data, c.qrFormat.value, env.deflate);
        var barWidth :- BarWidth(widget, env);
        Ok(barWidth + 1.0)
  }

  /** The older `draw`: the QR code, all text lines, the icons. */
  function LegacyRender(env: Env, c: LegacyContent, width: real, height: real): (r: Result<seq<DrawCmd>>)
    ensures c.qrData.Some? && c.qrFormat.None? ==> r == Err(TypeError)
    ensures r.Ok? ==> |r.value| == (if c.qrData.Some? then 1 else 0) + |c.textLines| + |c.icons|
    ensures r.Ok? ==> forall i :: 0 <= i < |c.textLines| ==> SizeOf(c.textLines[i].style).Ok?
    ensures r.Ok? ==> r.value[|r.value| - |c.icons|..] == LegacyIcons(c.icons, width)
  {
    var textX :- LegacyTextX(env, c);
    LegacyTextLayout(c.textLines, textX, height);
    var qrCmds := if c.qrData.Some? then [DrawQr(MakeQr(c.qrData.value, c.qrFormat.value, env.deflate).value)] else [];
    var text :- LegacyText(c.textLines, textX, height);
    Ok(qrCmds + text + LegacyIcons(c.icons, width))
  }

  /** Sum of `size + 1` over the first n lines: how far the cursor has dropped after them. */
  function Drop(lines: seq<PlainLine>, n: nat): real
    requires n <= |lines|
    requires forall i :: 0 <= i < |lines| ==> SizeOf(lines[i].style).Ok?
  {
    if n == 0 then 0.0 else Drop(lines, n - 1) + SizeOf(lines[n - 1].style).value + 1.0
  }

  /**
   * No truncation: every line is drawn, in order, line k at x = textX and
   * y = textY minus the sizes-plus-one of lines 0..k; it fails only on a
   * non-numeric font size.
   */
  lemma {:induction false} LegacyTextLayout(lines: seq<PlainLine>, textX: real, textY: real)
    ensures LegacyText(lines, textX, textY).Ok? <==> forall i :: 0 <= i < |lines| ==> SizeOf(lines[i].style).Ok?
    ensures var r := LegacyText(lines, textX, textY);
      r.Ok? ==> |r.value| == |lines|
    ensures var r := LegacyText(lines, textX, textY);
      r.Ok? ==> forall k :: 0 <= k < |lines| ==>
          r.value[k] == DrawString(textX, textY - Drop(lines, k + 1), lines[k].text, lines[k].style)
    decreases |lines|
  {
    if lines != [] {
      var tail := lines[1..];
      assert forall i :: 1 <= i < |lines| ==> tail[i - 1] == lines[i];
      var size := SizeOf(lines[0].style);
      if size.Ok? {
        var y := textY - (size.value + 1.0);
        LegacyTextLayout(tail, textX, y);
        var r := LegacyText(lines, textX, textY);
        if r.Ok? {
          forall k | 0 <= k < |lines|
            ensures r.value[k] == DrawString(textX, textY - Drop(lines, k + 1), lines[k].text, lines[k].style)
          {
            DropShift(lines, k + 1);
          }
        }
      }
    }
  }

  /** Dropping the first line shifts the sums by that line's size plus one. */
  lemma {:induction false} DropShift(lines: seq<PlainLine>, n: nat)
    requires 1 <= n <= |lines|
    requires forall i :: 0 <= i < |lines| ==> SizeOf(lines[i].style).Ok?
    ensures var tail := lines[1..];
      (forall i :: 0 <= i < |tail| ==> SizeOf(tail[i].style).Ok?) &&
      Drop(lines, n) == SizeOf(lines[0].style).value + 1.0 + Drop(tail, n - 1)
  {
    var tail := lines[1..];
    assert forall i :: 0 <= i < |tail| ==> tail[i] == lines[i + 1];
    if n > 1 {
      DropShift(lines, n - 1);
    }
  }

  /** Icon k of n sits at x = width - 10n + 10k, y = 10, 10 by 10: abutting, the last one ending at the right edge. */
  lemma LegacyIconLayout(icons: seq<string>, width: real)
    requires |icons| > 0
    ensures var r := LegacyIcons(icons, width);
      && (forall k :: 0 <= k < |r| - 1 ==> r[k].x + r[k].w == r[k + 1].x)
      && r[0].x == width - 10.0 * (|icons| as real)
      && r[|r| - 1].x + r[|r| - 1].w == width
      && (forall k :: 0 <= k < |r| ==> r[k].y == 10.0 && r[k].w == 10.0 && r[k].h == 10.0)
  {
    var r := LegacyIcons(icons, width);
    assert r[|r| - 1].x == width - 10.0 * (|icons| as real) + 10.0 * ((|icons| - 1) as real);
  }

  /** `make_qr`'s rule as the older script writes it out. */
  function LegacyPayload(data: string, compress: Option<Json>, deflate: string -> string): string {
    var isFalse := compress == Some(JBool(false)) || compress == Some(JNum(0.0));
    var isTrue := compress == Some(JBool(true)) || compress == Some(JNum(1.0));
    if isFalse then data
    else
      var compressed := deflate(data);
      if isTrue || |compressed| < |data| then compressed else data
  }

  /** The older script's compression rule is the library's. */
  lemma LegacyPayloadAgrees(data: string, compress: Option<Json>, deflate: string -> string)
    ensures LegacyPayload(data, compress, deflate) == Payload(data, CompressModeOf(compress), deflate)
  {
  }
}
