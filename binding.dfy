/**
 * The row binding of the scripts: `Column` specs that name one or more
 * table columns, the square-QR defaults, the icon-code table, and
 * `make_labels_from_table`, which turns each table row into the arguments of
 * one label.
 */
module Binding {
  import opened Values
  import opened Strings
  import opened Config

  /** A column spec as the scripts receive it: a string such as "1+3", or a plain index. */
  datatype ColumnSpec = ColStr(s: string) | ColInt(n: int)

  /** A `Column`: the row indices whose cells it concatenates. */
  datatype Column = Column(idxs: seq<int>)

  /** `map(int, pieces)`: every piece as an integer, or ValueError. */
  function ParseIndices(pieces: seq<string>): (r: Result<seq<int>>)
    ensures r.Ok? <==> forall i :: 0 <= i < |pieces| ==> ParseInt(pieces[i]).Ok?
    ensures r.Ok? ==> |r.value| == |pieces| && forall i :: 0 <= i < |pieces| ==> r.value[i] == ParseInt(pieces[i]).value
    ensures r.Err? ==> r.error == ValueError
  {
    if pieces == [] then Ok([])
    else
      var first := ParseInt(pieces[0]);
      if first.Err? then Err(ValueError)
      else
        var rest := ParseIndices(pieces[1..]);
        if rest.Err? then Err(ValueError)
        else
          assert forall i :: 1 <= i < |pieces| ==> pieces[i] == pieces[1..][i - 1];
          Ok([first.value] + rest.value)
  }

  /** `Column(col)` of the newer script: a string is split at '+', anything else is one index. */
  function ColumnOf(spec: ColumnSpec): (r: Result<Column>)
    ensures spec.ColInt? ==> r == Ok(Column([spec.n]))
    ensures spec.ColStr? ==> (r.Ok? <==> ParseIndices(Split(spec.s, '+')).Ok?)
    ensures spec.ColStr? && r.Ok? ==> r.value.idxs == ParseIndices(Split(spec.s, '+')).value
    ensures r.Err? ==> r.error == ValueError
  {
    match spec
    case ColInt(n) => Ok(Column([n]))
    case ColStr(s) =>
      var idxs :- ParseIndices(Split(s, '+'));
      Ok(Column(idxs))
  }

  /** `Column(col)` of the older scripts: only a string can be split. */
  function StrictColumnOf(spec: ColumnSpec): (r: Result<Column>)
    ensures spec.ColInt? ==> r == Err(AttributeError("split"))
    ensures spec.ColStr? ==> r == ColumnOf(spec)
  {
    match spec
    case ColInt(_) => Err(AttributeError("split"))
    case ColStr(s) =>
      var idxs :- ParseIndices(Split(s, '+'));
      Ok(Column(idxs))
  }

  /** The decimal spellings of the indices. */
  function Spellings(idxs: seq<nat>): (r: seq<string>)
    ensures |r| == |idxs|
    ensures forall i :: 0 <= i < |idxs| ==> r[i] == NatToString(idxs[i])
  {
    if idxs == [] then [] else [NatToString(idxs[0])] + Spellings(idxs[1..])
  }

  /** Writing indices as "a+b+…" and parsing the spec gives back the indices, in order. */
  lemma ColumnOfSpelling(idxs: seq<nat>)
    requires |idxs| >= 1
    ensures ColumnOf(ColStr(Join(Spellings(idxs), "+"))) == Ok(Column(idxs))
    ensures StrictColumnOf(ColStr(Join(Spellings(idxs), "+"))) == Ok(Column(idxs))
  {
    var parts := Spellings(idxs);
    forall i | 0 <= i < |parts| ensures '+' !in parts[i] {
      assert AllDigits(parts[i]);
    }
    assert "+" == ['+'];
    SplitJoin(parts, '+');
    forall i | 0 <= i < |parts| ensures ParseInt(parts[i]) == Ok(idxs[i]) {
      ParseIntOfNatToString(idxs[i]);
    }
    var parsed := ParseIndices(Split(Join(parts, "+"), '+'));
    assert parsed.value == idxs;
  }

  /** `row[i]` with Python's indexing: a negative index counts from the end. */
  function CellAt(row: seq<string>, i: int): (r: Result<string>)
    ensures r.Ok? <==> -|row| <= i < |row|
    ensures r.Ok? ==> r.value == row[if i >= 0 then i else |row| + i]
    ensures r.Err? ==> r.error == IndexError
  {
    if 0 <= i < |row| then Ok(row[i])
    else if -|row| <= i < 0 then Ok(row[|row| + i])
    else Err(IndexError)
  }

  /** The cells at the given indices, in index order. */
  function Cells(row: seq<string>, idxs: seq<int>): (r: Result<seq<string>>)
    ensures r.Ok? <==> forall k :: 0 <= k < |idxs| ==> CellAt(row, idxs[k]).Ok?
    ensures r.Ok? ==> |r.value| == |idxs| && forall k :: 0 <= k < |idxs| ==> r.value[k] == CellAt(row, idxs[k]).value
    ensures r.Err? ==> r.error == IndexError
  {
    if idxs == [] then Ok([])
    else
      var first := CellAt(row, idxs[0]);
      if first.Err? then Err(IndexError)
      else
        var rest := Cells(row, idxs[1..]);
        if rest.Err? then Err(IndexError)
        else
          assert forall k :: 1 <= k < |idxs| ==> idxs[k] == idxs[1..][k - 1];
          Ok([first.value] + rest.value)
  }

  /** `Column.get(row)`: the selected cells joined by ", ". */
  function ColumnGet(col: Column, row: seq<string>): (r: Result<string>)
    ensures r.Ok? <==> forall k :: 0 <= k < |col.idxs| ==> -|row| <= col.idxs[k] < |row|
    ensures r.Err? ==> r.error == IndexError
    ensures r.Ok? ==> r.value == Join(Cells(row, col.idxs).value, ", ")
  {
    var cells :- Cells(row, col.idxs);
    Ok(Join(cells, ", "))
  }

  /**
   * The cells come in index order: a column's string is its first cell, then
   * ", " and the string of the remaining indices.
   */
  lemma ColumnGetCons(row: seq<string>, i: int, rest: seq<int>)
    requires -|row| <= i < |row| && |rest| >= 1
    ensures ColumnGet(Column([i] + rest), row).Ok? <==> ColumnGet(Column(rest), row).Ok?
    ensures ColumnGet(Column(rest), row).Ok? ==>
      ColumnGet(Column([i] + rest), row).value == CellAt(row, i).value + ", " + ColumnGet(Column(rest), row).value
  {
    var idxs := [i] + rest;
    assert idxs[1..] == rest;
    var cells := Cells(row, idxs);
    if cells.Ok? {
      assert Cells(row, rest).Ok?;
      assert cells.value == [CellAt(row, i).value] + Cells(row, rest).value;
      JoinCons(CellAt(row, i).value, Cells(row, rest).value, ", ");
    }
  }

  /** A column of one index gives its cell unchanged; two give the cells with ", " between. */
  lemma ColumnGetCells(row: seq<string>, i: int, j: int)
    requires 0 <= i < |row| && 0 <= j < |row|
    ensures ColumnGet(Column([i]), row) == Ok(row[i])
    ensures ColumnGet(Column([i, j]), row) == Ok(row[i] + ", " + row[j])
  {
    assert Cells(row, [i]).value == [row[i]];
    assert Cells(row, [i, j]).value == [row[i], row[j]];
    assert [row[i], row[j]][1..] == [row[j]];
  }

  /** The label height the QR may take by default: the label height less the vertical padding, in points. */
  const Mm: real := 72.0 / 25.4

  function UsableHeight(labelHeight: real, topPadding: real, bottomPadding: real): (r: real)
    ensures topPadding + bottomPadding >= 0.0 ==> r <= labelHeight * Mm
    ensures topPadding + bottomPadding == 0.0 ==> r == labelHeight * Mm
  {
    (labelHeight - (topPadding + bottomPadding)) * Mm
  }

  /** The QR format made square by default: a missing side is the other side, or the usable height. */
  function SquareQr(fmt: Style, height: real): (r: Style)
    ensures "barWidth" in r && "barHeight" in r
    ensures r.Keys == fmt.Keys + {"barWidth", "barHeight"}
    ensures forall k :: k in fmt ==> r[k] == fmt[k]
    ensures "barWidth" !in fmt || "barHeight" !in fmt ==> r["barWidth"] == r["barHeight"]
    ensures "barWidth" !in fmt && "barHeight" !in fmt ==> r["barWidth"] == JNum(height)
  {
    var withWidth := if "barWidth" in fmt then fmt else fmt["barWidth" := Get(fmt, "barHeight", JNum(height))];
    if "barHeight" in withWidth then withWidth else withWidth["barHeight" := withWidth["barWidth"]]
  }

  /** `tuple(icons[c] for c in codes)`: each code character through the icon table, in order. */
  function MapIcons(codes: string, table: Json): (r: Result<seq<Json>>)
    ensures table.JObj? ==> (r.Ok? <==> forall k :: 0 <= k < |codes| ==> [codes[k]] in table.fields)
    ensures r.Ok? ==> |r.value| == |codes|
    ensures r.Ok? && table.JObj? ==> forall k :: 0 <= k < |codes| ==> r.value[k] == table.fields[[codes[k]]]
    ensures r.Err? && table.JObj? ==>
      r.error.KeyError? && |r.error.key| == 1 && r.error.key !in table.fields && r.error.key[0] in codes
    ensures codes != [] && !table.JObj? ==> r == Err(TypeError)
  {
    if codes == [] then Ok([])
    else if !table.JObj? then Err(TypeError)
    else if [codes[0]] !in table.fields then Err(KeyError([codes[0]]))
    else
      var rest := MapIcons(codes[1..], table);
      if rest.Err? then rest
      else
        assert forall k :: 1 <= k < |codes| ==> codes[k] == codes[1..][k - 1];
        Ok([table.fields[[codes[0]]]] + rest.value)
  }

  /** What one row contributes to one label, by keyword. */
  datatype LabelArgs = LabelArgs(text: Option<seq<string>>, textFormat: Option<Json>, qrData: Option<string>,
                                 qrFormat: Option<Style>, icons: seq<Json>)

  /** What stays the same from row to row. */
  datatype Plan = Plan(textColumns: Option<seq<Column>>, qrColumn: Option<Column>, iconColumn: Option<Column>,
                       iconTable: Option<Json>, textFormat: Option<Json>, qrFormat: Option<Style>)

  /** The text lines of a row, one per text column. */
  function GetAll(cols: seq<Column>, row: seq<string>): (r: Result<seq<string>>)
    ensures r.Ok? <==> forall k :: 0 <= k < |cols| ==> ColumnGet(cols[k], row).Ok?
    ensures r.Ok? ==> |r.value| == |cols| && forall k :: 0 <= k < |cols| ==> r.value[k] == ColumnGet(cols[k], row).value
    ensures r.Err? ==> r.error == IndexError
  {
    if cols == [] then Ok([])
    else
      var first := ColumnGet(cols[0], row);
      if first.Err? then Err(IndexError)
      else
        var rest := GetAll(cols[1..], row);
        if rest.Err? then Err(IndexError)
        else
          assert forall k :: 1 <= k < |cols| ==> cols[k] == cols[1..][k - 1];
          Ok([first.value] + rest.value)
  }

  /** The icon paths of a row: none without an icon column or an icon table. */
  function RowIcons(plan: Plan, row: seq<string>): Result<seq<Json>> {
    if plan.iconColumn.Some? && plan.iconTable.Some? then
      var codes :- ColumnGet(plan.iconColumn.value, row);
      MapIcons(codes, plan.iconTable.value)
    else Ok([])
  }

  /** One row of the loop of `make_labels_from_table`: text, then QR data, then icons. */
  function BindRow(plan: Plan, row: seq<string>): (r: Result<LabelArgs>)
    ensures r.Ok? ==> r.value.textFormat == plan.textFormat && r.value.qrFormat == plan.qrFormat
    ensures r.Ok? ==> (r.value.text.Some? <==> plan.textColumns.Some?)
    ensures r.Ok? && plan.textColumns.Some? ==>
      GetAll(plan.textColumns.value, row) == Ok(r.value.text.value)
    ensures r.Ok? ==> (r.value.qrData.Some? <==> plan.qrColumn.Some?)
    ensures r.Ok? && plan.qrColumn.Some? ==> ColumnGet(plan.qrColumn.value, row) == Ok(r.value.qrData.value)
    ensures r.Ok? ==> RowIcons(plan, row) == Ok(r.value.icons)
    ensures r.Ok? <==>
      (plan.textColumns.Some? ==> GetAll(plan.textColumns.value, row).Ok?)
      && (plan.qrColumn.Some? ==> ColumnGet(plan.qrColumn.value, row).Ok?)
      && RowIcons(plan, row).Ok?
  {
    var text :- if plan.textColumns.None? then Ok(None)
                else var t :- GetAll(plan.textColumns.value, row); Ok(Some(t));
    var qrData :- if plan.qrColumn.None? then Ok(None)
                  else var q :- ColumnGet(plan.qrColumn.value, row); Ok(Some(q));
    var icons :- RowIcons(plan, row);
    Ok(LabelArgs(text, plan.textFormat, qrData, plan.qrFormat, icons))
  }

  /** The label arguments of every row, in row order, or the first failing row's error. */
  function BindAll(plan: Plan, rows: seq<seq<string>>): (r: Result<seq<LabelArgs>>)
    ensures r.Ok? <==> forall i :: 0 <= i < |rows| ==> BindRow(plan, rows[i]).Ok?
    ensures r.Ok? ==> |r.value| == |rows| && forall i :: 0 <= i < |rows| ==> r.value[i] == BindRow(plan, rows[i]).value
    ensures r.Err? ==> exists i :: (0 <= i < |rows| && BindRow(plan, rows[i]) == Err(r.error)
      && forall j :: 0 <= j < i ==> BindRow(plan, rows[j]).Ok?)
  {
    if rows == [] then Ok([])
    else
      var first :- BindRow(plan, rows[0]);
      var rest :- BindAll(plan, rows[1..]);
      assert forall i :: 1 <= i < |rows| ==> rows[i] == rows[1..][i - 1];
      Ok([first] + rest)
  }

  /** The loop over the rows, appending one label per row. */
  method BindTable(plan: Plan, rows: seq<seq<string>>) returns (r: Result<seq<LabelArgs>>)
    ensures r == BindAll(plan, rows)
  {
    var out: seq<LabelArgs> := [];
    var i := 0;
    while i < |rows|
      invariant 0 <= i <= |rows| && |out| == i
      invariant forall j :: 0 <= j < i ==> BindRow(plan, rows[j]).Ok? && out[j] == BindRow(plan, rows[j]).value
    {
      var bound := BindRow(plan, rows[i]);
      if bound.Err? {
        ghost var all := BindAll(plan, rows);
        assert all.Err?;
        ghost var k :| 0 <= k < |rows| && BindRow(plan, rows[k]) == Err(all.error)
          && forall j :: 0 <= j < k ==> BindRow(plan, rows[j]).Ok?;
        assert k == i;
        return Err(bound.error);
      }
      out := out + [bound.value];
      i := i + 1;
    }
    assert BindAll(plan, rows).Ok?;
    assert out == BindAll(plan, rows).value;
    r := Ok(out);
  }

  /**
   * The formats `make_labels_from_table` hands every label: the text
   * section's format, and the QR section's format made square. The merged
   * configuration always holds both sections, so a section that is off
   * fails: `False.get` for the text, `False["compress"]` for the QR.
   */
  function TableFormats(config: Merged, height: real): (r: Result<(Json, Style)>)
    ensures config.text.Off? ==> r == Err(AttributeError("get"))
    ensures config.text.On? && config.qr.Off? ==> r == Err(TypeError)
    ensures r.Ok? ==> config.text.On? && config.qr.On? && "compress" in config.qr.fields
    ensures r.Ok? ==> r.value.0 == Get(config.text.fields, "format", JObj(map[]))
    ensures r.Ok? ==> (Get(config.qr.fields, "format", JObj(map[])).JObj?
      && r.value.1 == SquareQr(Get(config.qr.fields, "format", JObj(map[])).fields, height))
  {
    match config.text
    case Off => Err(AttributeError("get"))
    case On(text) =>
      match config.qr
      case Off => Err(TypeError)
      case On(qr) =>
        if "compress" !in qr then Err(KeyError("compress"))
        else
          var fmt := Get(qr, "format", JObj(map[]));
          if !fmt.JObj? then Err(TypeError)
          else Ok((Get(text, "format", JObj(map[])), SquareQr(fmt.fields, height)))
  }

  /** `make_labels_from_table` up to the list of labels: the formats, then one label per row. */
  function LabelsFromTable(config: Merged, height: real, textColumns: Option<seq<Column>>, qrColumn: Option<Column>,
                           iconColumn: Option<Column>, rows: seq<seq<string>>): (r: Result<seq<LabelArgs>>)
    ensures TableFormats(config, height).Err? ==> r == Err(TableFormats(config, height).error)
    ensures TableFormats(config, height).Ok? && rows == [] ==> r == Ok([])
    ensures r.Ok? ==> |r.value| == |rows|
  {
    var formats :- TableFormats(config, height);
    BindAll(Plan(textColumns, qrColumn, iconColumn, config.icons, Some(formats.0), Some(formats.1)), rows)
  }

  /**
   * Every label made from a table: one per row, in row order; its text lines
   * are the row's text columns; its QR format is square; its icons are the
   * row's icon codes through the configured table.
   */
  lemma LabelsFromTableRows(config: Merged, height: real, textColumns: Option<seq<Column>>, qrColumn: Option<Column>,
                            iconColumn: Option<Column>, rows: seq<seq<string>>)
    requires LabelsFromTable(config, height, textColumns, qrColumn, iconColumn, rows).Ok?
    ensures var labels := LabelsFromTable(config, height, textColumns, qrColumn, iconColumn, rows).value;
      && |labels| == |rows|
      && forall i :: 0 <= i < |rows| ==>
        && (textColumns.Some? ==> labels[i].text.Some? && GetAll(textColumns.value, rows[i]) == Ok(labels[i].text.value))
        && (qrColumn.Some? ==> labels[i].qrData.Some? && ColumnGet(qrColumn.value, rows[i]) == Ok(labels[i].qrData.value))
        && labels[i].qrFormat.Some? && "barWidth" in labels[i].qrFormat.value && "barHeight" in labels[i].qrFormat.value
        && (iconColumn.None? || config.icons.None? ==> labels[i].icons == [])
        && (iconColumn.Some? && config.icons.Some? ==>
              ColumnGet(iconColumn.value, rows[i]).Ok?
              && MapIcons(ColumnGet(iconColumn.value, rows[i]).value, config.icons.value) == Ok(labels[i].icons))
  {
    var formats := TableFormats(config, height).value;
    var plan := Plan(textColumns, qrColumn, iconColumn, config.icons, Some(formats.0), Some(formats.1));
    var labels := BindAll(plan, rows).value;
    forall i | 0 <= i < |rows|
      ensures labels[i].qrFormat == Some(formats.1)
      ensures RowIcons(plan, rows[i]) == Ok(labels[i].icons)
    {
    }
  }

  /** `make_labels_from_table` of the newer scripts, with the usable height from the spec's label height and padding. */
  method MakeLabelsFromTable(config: Merged, labelHeight: real, topPadding: real, bottomPadding: real,
                             textColumns: Option<seq<Column>>, qrColumn: Option<Column>,
                             iconColumn: Option<Column>, rows: seq<seq<string>>)
    returns (r: Result<seq<LabelArgs>>)
    ensures r == LabelsFromTable(config, UsableHeight(labelHeight, topPadding, bottomPadding), textColumns, qrColumn, iconColumn, rows)
  {
    var height := UsableHeight(labelHeight, topPadding, bottomPadding);
    var formats := TableFormats(config, height);
    if formats.Err? {
      return Err(formats.error);
    }
    var plan := Plan(textColumns, qrColumn, iconColumn, config.icons, Some(formats.value.0), Some(formats.value.1));
    r := BindTable(plan, rows);
  }

  /**
   * `make_labels_from_table` of the older script. It first reads
   * `config["spec"]`, a KeyError when missing. The QR branch dies on the
   * misspelt `confg` once `compress` is read; without a QR section the
   * format is never bound, so the first row that reaches the label
   * constructor fails on it.
   */
  function LegacyLabelsFromTable(config: Obj, textColumns: Option<seq<Column>>, qrColumn: Option<Column>,
                                 iconColumn: Option<Column>, rows: seq<seq<string>>): (r: Result<seq<LabelArgs>>)
    ensures "spec" !in config ==> r == Err(KeyError("spec"))
    ensures r.Ok? <==> "spec" in config && rows == [] && "qr" !in config && ("text" in config ==> config["text"].JObj?)
    ensures r.Ok? ==> r.value == []
    ensures "spec" in config && "qr" in config && ("text" in config ==> config["text"].JObj?) ==>
      r == Err(if !config["qr"].JObj? then TypeError
               else if "compress" !in config["qr"].fields then KeyError("compress")
               else NameError("confg"))
  {
    var specs :- Lookup(config, "spec");
    var textFormat :- if "text" !in config then Ok(None)
                      else if config["text"].JObj? then Ok(Some(Get(config["text"].fields, "format", JObj(map[]))))
                      else Err(AttributeError("get"));
    if "qr" in config then
      var qr := config["qr"];
      if !qr.JObj? then Err(TypeError)
      else if "compress" !in qr.fields then Err(KeyError("compress"))
      else Err(NameError("confg"))
    else if rows == [] then Ok([])
    else
      var plan := Plan(textColumns, qrColumn, iconColumn,
                       if "icons" in config then Some(config["icons"]) else None, textFormat, None);
      var first :- BindRow(plan, rows[0]);
      Err(NameError("qr_format"))
  }
}
