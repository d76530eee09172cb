# Label maker core, modelled in Dafny

This project models the layout and binding logic of a label maker that prints sheets of labels from table rows. Each label can have:

- lines of text, each wrapped or scaled to fit;
- an optional QR code;
- an optional right-aligned index string;
- a row of icons.

The modelled pieces are:

- **Label construction** (`DefaultLabel.__init__` and its setters).
  - `safe_get` gives each line its own format entry and shrink policy.
  - The QR and index formats get their defaults.
  - The index format always has `textAnchor = "end"`.
  - Module `Label`: a class `DefaultLabel` whose methods update its fields.
- **Drawing a label** (`DefaultLabel.draw`).
  - The drawing is a list of draw commands. The source's `label.add` calls are appended to it.
  - The width budget is reduced by the QR code and by the index.
  - Icons form a row of 16-point squares at the bottom right.
  - A text cursor drops by `fontSize + 1` per line. The first line that does not fit stops the text.
  - Module `Layout` holds the functions that specify this. The methods of module `Label` run the loops and are proved equal to those functions.
- **The fit loops** (module `Fit`).
  - `wrap_text` lowers a character budget until all wrapped pieces fit.
  - `scale_font_size` multiplies the font size by 0.8 until the text fits.
- **The QR compression rule** and the widget arguments of `make_qr` (module `Qr`).
- **The partial first page** computed from `skip` in `make_labels`, and the draw callback (module `Sheet`).
- **The row helpers** (module `Util`):
  - `safe_get` and `safe_map`;
  - the `AliasedDict` lookup;
  - the `col<N>` alias naming of the row readers.
- **The older `labeler.py`** (module `Legacy`):
  - its label class;
  - its drawing, with 10-point icons and no truncation;
  - its `make_qr`.
- **The script configuration merge**: `prepare_config` and both `get_config` variants (module `Config`).
- **The script row binding** (module `Binding`):
  - `Column` parsing and `Column.get`;
  - the square-QR defaults;
  - the icon-code table;
  - `make_labels_from_table`, which makes one label per row.

**Collaborators.** The code calls collaborators that are not part of this model. They are passed in explicitly as the value `Backend.Env`:

- `stringWidth`. It is modelled as the font size times a sum of glyph advances, so it is non-negative and linear in the size.
- `textwrap.wrap`.
- `zlib.compress`.
- The default `barWidth` of a QR widget.
- `os.path.exists`. It is a predicate parameter of the methods that add icons.

**Python semantics.**

- Python exceptions are modelled as `Values.Error` values.
- A loop that never ends is modelled as `NonTermination`.
- Dynamically typed values (format maps, configuration files) are modelled as `Values.Json`.

**Where the code departs from what its documentation promises, the model follows the code:**

- *Text that does not fit.* The documented behaviour is that a text line that does not fit is skipped. The code stops at the first such line, so no later line is drawn.
- *The scale loop.* The documentation asks for a minimum font size. The code has none, and its scale loop never ends when the available width is 0 or less.
- *The skip list.* The documentation says skip leaves the first `skip mod capacity` positions blank. The code as written never produces that list (see Findings).

## Model

| member | source | states |
|---|---|---|
| Util.SafeGet | labelmaker/util.py:115-119 | a list yields its idx-th element (IndexError past the end); any other value is returned unchanged whatever the index |
| Util.SafeMap | labelmaker/util.py:109-113 | a list is mapped element by element, keeping its length; a scalar gets fn applied once |
| Util.SafeGetOfSafeMap | labelmaker/util.py:109-119 | reading line idx of a mapped value equals mapping line idx of the value, errors included |
| Util.AliasedDict.LookupFrom | labelmaker/util.py:104-107 | a stored key gives its own value; a key that is neither stored nor an alias raises KeyError(key); any value found is a stored value |
| Util.AliasedDict.Lookup | labelmaker/util.py:98-107 | a stored key gives its value; an alias of a stored key gives that key's value; a success implies the key is contained; an unknown key raises KeyError(key) |
| Util.ColNameInjective | labelmaker/util.py:12 | distinct column indices get distinct `col<N>` names |
| Util.ColNames | labelmaker/util.py:12 | the n names are `col1` … `colN`, in order |
| Util.ZipDictAt | labelmaker/util.py:15 | with distinct keys, `dict(zip(keys, values))` maps the i-th key to the i-th value |
| Util.ZipDictLast | labelmaker/util.py:15 | every entry of `dict(zip(keys, values))` comes from a zipped pair, the last one with that key |
| Util.ZipDictHas | labelmaker/util.py:15 | every zipped key is a key of the dict |
| Util.ZipDictKeys | labelmaker/util.py:15 | the keys of `dict(zip(keys, values))` are exactly the zipped keys |
| Util.ReaderNaming | labelmaker/util.py:12-18 | one field name per first-row cell; aliases exist exactly with a header; the names are the first row with a header and `col1..colN` without one |
| Util.ReaderNamingAliases | labelmaker/util.py:12-18 | with a header, the field names are the first row and alias `col<i+1>` names header field i, the alias keys being exactly those names; without one, the names are `col1..colN` and there are no aliases |
| Util.RowByPosition | labelmaker/util.py:63-66 | in a header reader's row with distinct header fields, column i can be read through its alias `col<i+1>` |
| Strings.Join | bin/make-labels.py:23 | joining one piece gives the piece; joining none gives "" |
| Strings.Split | bin/make-labels.py:18 | a split has at least one piece and no piece holds the separator |
| Strings.JoinSplit | bin/make-labels.py:18 | joining the pieces of a split with the separator gives back the string |
| Strings.SplitJoin | bin/make-labels.py:18 | splitting a join of separator-free pieces gives back the pieces |
| Strings.NatToString | labelmaker/util.py:12 | the decimal spelling of a number is a non-empty string of digits |
| Strings.DigitsValueOfNatToString | labelmaker/util.py:12 | reading the digits back gives the number |
| Strings.NatToStringInjective | labelmaker/util.py:12 | different numbers have different spellings |
| Strings.Strip | bin/make-labels.py:18 | the stripped string is no longer than the input and, when non-empty, starts and ends with a non-space |
| Strings.StripIsSlice | bin/make-labels.py:18 | what `strip` keeps is one contiguous slice of the input, with only whitespace before and after it |
| Strings.StripPadded | bin/make-labels.py:18 | whitespace added before and after a string does not change what it strips to |
| Strings.StripTrailing | bin/make-labels.py:18 | whitespace added after a string does not change what it strips to |
| Strings.ParseIntOfStrip | bin/make-labels.py:18 | `int()` looks only at the stripped string |
| Strings.ParseIntPadded | bin/make-labels.py:18 | `int()` ignores surrounding whitespace: padding a string with whitespace does not change what it parses to |
| Strings.ParseInt | bin/make-labels.py:18 | a non-empty string of digits parses to its value |
| Strings.ParseIntOfNatToString | bin/make-labels.py:18 | parsing the decimal spelling of n gives n |
| Backend.StringWidthScales | labelmaker/labelmaker.py:136-139 | the measured width scales linearly with the font size and is non-negative for a non-negative size |
| Fit.Widest | labelmaker/labelmaker.py:131 | the maximum bounds every piece's width and is attained by some piece |
| Fit.WidestFits | labelmaker/labelmaker.py:128-131 | the widest piece fits exactly when every piece fits |
| Fit.WrapSearch | labelmaker/labelmaker.py:128-131 | a wrap found by the budget search is non-empty; the search fails only with ValueError |
| Fit.WrapTextResult | labelmaker/labelmaker.py:124-132 | text that fits is returned whole as the one piece; any result has at least one piece; a failure is ValueError |
| Fit.WrapSearchBudget | labelmaker/labelmaker.py:128-131 | a successful search returns the wrap at some budget 1 <= k <= nchar whose pieces all fit, and every larger budget tried had a piece that did not fit |
| Fit.WrapTextFits | labelmaker/labelmaker.py:124-132 | `wrap_text` returns the text unchanged when it fits, and otherwise a non-empty list of pieces that all fit |
| Fit.WrapText | labelmaker/labelmaker.py:124-132 | the loop (budget decreasing from the text length, ValueError at budget 0 or an empty wrap) returns exactly the specified wrap result |
| Fit.ScaleMeasureDecreases | labelmaker/labelmaker.py:137-139 | while the text does not fit a positive width, each multiplication by 0.8 strictly lowers the termination measure |
| Fit.ScaledSize | labelmaker/labelmaker.py:134-140 | the returned size fits; a size that already fits is returned unchanged; the result lies between 0 and the input size |
| Fit.SizeAfterStep | labelmaker/labelmaker.py:138 | one step then j steps is j+1 steps: the size after j steps is size·0.8^j |
| Fit.ScaledSizeIsFirstFit | labelmaker/labelmaker.py:134-140 | the returned size is size·0.8^k for the least k at which the text fits |
| Fit.ScaleFontSize | labelmaker/labelmaker.py:134-140 | the loop returns the specified size, and the text fits at it |
| Qr.CompressModeOf | labelmaker/labelmaker.py:171-180 | False (or 0) never compresses, True (or 1) always compresses, and exactly every other value (an absent flag, "auto", 2, any string) compresses only when that is shorter |
| Qr.Payload | labelmaker/labelmaker.py:177-180 | never: the raw data; always: the compressed data; otherwise one of the two |
| Qr.IfSmallerPicksShorter | labelmaker/labelmaker.py:179-180 | by default the payload is no longer than either form, and it is the compressed form exactly when that is strictly shorter (or equal to the raw data) |
| Qr.MakeQr | labelmaker/labelmaker.py:172-185 | exactly when the format holds `data`, `barLevel` or `qrVersion`, an argument is named twice and the call raises TypeError; otherwise the widget gets `error` (default "L") as level, `version` (default None), every other keyword except `compress`, and the payload of the compression rule |
| Qr.BarWidth | labelmaker/labelmaker.py:64 | a widget without a `barWidth` keyword has the default width; a given `barWidth` is the width when it is a number and TypeError otherwise |
| Qr.BarWidthOfFormat | labelmaker/labelmaker.py:62-64 | the bar width the text starts after is the QR format's `barWidth`, or the widget default when the format has none |
| Layout.IconRow | labelmaker/labelmaker.py:80-82 | one image per icon |
| Layout.Preamble | labelmaker/labelmaker.py:55-82 | a successful preamble has one shape for the QR code, one for the index and one per icon; the icon row takes 16 points off the height exactly when there are icons |
| Layout.PreambleBudget | labelmaker/labelmaker.py:55-82 | text x is barWidth+1 with a QR and 0 without; max width is width minus (barWidth+1) minus (index width+1); max height loses 16 with icons; the commands are the QR, then the index at (width, height − fontSize), then the icon row |
| Layout.PreambleFails | labelmaker/labelmaker.py:61-70 | the preamble fails exactly when the QR bar width or the index font name or size is unusable |
| Layout.IconRowLayout | labelmaker/labelmaker.py:76-82 | icon k is a 16×16 image at x = width − 17n + 17k, y = 1; neighbours leave a 1-point gap; the last ends at width − 1 |
| Layout.Stacked | labelmaker/labelmaker.py:96-98 | one string per wrapped piece |
| Layout.StepCursor | labelmaker/labelmaker.py:85-109 | a line whose `fontSize` is unusable raises that error; an unwrapped emitted line is one string; an emitted line has at least one command, passed its check (size·pieces <= cursor), and moves the cursor down by pieces·(size+1); piece k is at y = cursor − (k+1)(size+1); a scaled size is written back into the line's format |
| Layout.PlaceLineCursor | labelmaker/labelmaker.py:105-109 | an unwrapped line is drawn one string, size+1 below the cursor, only if its size fits under the cursor; the line is unchanged |
| Layout.WrapStepCursor | labelmaker/labelmaker.py:90-98 | a wrapped line's pieces are drawn only if size·pieces fits under the cursor, piece k at cursor − (k+1)(size+1); the line is unchanged |
| Layout.ScaleStepCursor | labelmaker/labelmaker.py:100-109 | a scaled line is placed at the scaled size, which is written back into its format as `fontSize` |
| Layout.WrapStep | labelmaker/labelmaker.py:90-98 | fails exactly when the font or the wrap fails; the line is kept as it is; an emitted line draws one string per wrapped piece |
| Layout.ScaleStep | labelmaker/labelmaker.py:100-109 | an unusable font raises its error; with a font, the step is NonTermination exactly when the scale loop does not end; text and shrink policy are kept; an emitted line is one string |
| Layout.PlaceLine | labelmaker/labelmaker.py:105-109 | stops exactly when the size exceeds the cursor; never fails and keeps the line; otherwise one string at cursor − (size+1), which is the new cursor |
| Layout.StepFitsWidth | labelmaker/labelmaker.py:90-103 | every string a wrapped or scaled line emits measures at most the available width |
| Layout.RunSteps | labelmaker/labelmaker.py:85-109 | the text loop, over any step, keeps one stored line per input line |
| Layout.RenderLines | labelmaker/labelmaker.py:85-109 | the text loop keeps one stored line per input line |
| Layout.Render | labelmaker/labelmaker.py:54-109 | one stored line per text line; a failing preamble is returned with the lines unchanged; a drawing begins with the preamble's shapes |
| Layout.RenderLinesHalts | labelmaker/labelmaker.py:93-94 | once a line stops the loop (or fails), later lines draw nothing and are stored unchanged |
| Layout.RunStepsSnoc | labelmaker/labelmaker.py:86-109 | for any step, the loop over lines plus one more is the loop followed by that line's step from the reached cursor |
| Layout.RenderLinesSnoc | labelmaker/labelmaker.py:86-109 | the loop over lines plus one more is the loop followed by that line's step from the reached cursor |
| Layout.RunStepsAppend | labelmaker/labelmaker.py:86-109 | for any step, the loop over two blocks of lines is the loop over the first continued from its cursor over the second |
| Layout.RenderLinesAppend | labelmaker/labelmaker.py:86-109 | the loop over two blocks of lines is the loop over the first continued from its cursor over the second |
| Layout.StackedTopDown | labelmaker/labelmaker.py:96-98 | the strings of a wrapped line run top-down between the old and the new cursor |
| Layout.StackedBetween | labelmaker/labelmaker.py:96-98 | strings stacked in steps below the cursor lie below it and no lower than the new cursor |
| Layout.StackedDescending | labelmaker/labelmaker.py:96-98 | strings stacked in steps below the cursor go strictly down |
| Layout.StackedIsTopDown | labelmaker/labelmaker.py:96-98 | the stacked pieces of a wrapped line run top-down, ending pieces·(size+1) below the cursor |
| Layout.PlaceLineTopDown | labelmaker/labelmaker.py:105-109 | a placed line lies between the old and the new cursor |
| Layout.WrapStepTopDown | labelmaker/labelmaker.py:90-98 | a wrapped line lies between the old and the new cursor |
| Layout.StepTopDown | labelmaker/labelmaker.py:86-109 | any emitted line lies between the old and the new cursor |
| Layout.RenderTopDown | labelmaker/labelmaker.py:85-109 | with non-negative sizes, the text runs top-down from the start height and never above it |
| Label.LineFormat | labelmaker/labelmaker.py:23-26 | line idx gets every format key, a list value giving its idx-th element and a scalar applying as is; IndexError when a list is too short; no format gives an empty map |
| Label.ResolveFormat | labelmaker/labelmaker.py:23-26 | the loop over the format keys builds exactly the line's format |
| Label.TextLines | labelmaker/labelmaker.py:20-28 | construction succeeds exactly when every line's format and shrink resolve; line i keeps its text, its format and `safe_get(shrink, i)`, in input order |
| Label.TextLinesPrefix | labelmaker/labelmaker.py:21-28 | the lines stored for a prefix are the prefix of the stored lines |
| Label.DefaultLabel.constructor | labelmaker/labelmaker.py:20 | a new label has no lines, QR, icons or index |
| Label.DefaultLabel.AddText | labelmaker/labelmaker.py:38-39 | appends exactly one line (text, format, shrink) |
| Label.DefaultLabel.SetQr | labelmaker/labelmaker.py:41-43 | stores the QR data; a missing format becomes an empty map |
| Label.DefaultLabel.AddIcon | labelmaker/labelmaker.py:45-47 | appends the icon exactly when the file exists, else AssertionError with the icons unchanged |
| Label.DefaultLabel.SetIndex | labelmaker/labelmaker.py:49-52 | stores the index; the format (empty if missing) always gets textAnchor "end", overriding a supplied value |
| Label.DefaultLabel.Draw | labelmaker/labelmaker.py:54-109 | draws exactly the specified commands of the label's contents and writes scaled font sizes back into the stored lines |
| Label.Create | labelmaker/labelmaker.py:18-36 | succeeds exactly when the lines resolve and every icon exists; errors are IndexError for the lines and AssertionError for an icon; the new label holds the resolved lines, the QR data and format, the icons and the anchored index format |
| Label.AddLines | labelmaker/labelmaker.py:21-28 | appends the resolved lines in order, or fails with IndexError |
| Label.AddIcons | labelmaker/labelmaker.py:32-34 | appends all icons in order exactly when they all exist, else AssertionError |
| Label.DrawPreamble | labelmaker/labelmaker.py:55-82 | the QR, index and icon steps return exactly the specified budget and commands |
| Label.DrawLine | labelmaker/labelmaker.py:87-109 | one iteration of the text loop is exactly the specified line step |
| Label.DrawWrapped | labelmaker/labelmaker.py:90-98 | the wrapped branch is exactly the specified wrap step |
| Label.DrawPieces | labelmaker/labelmaker.py:96-98 | the piece loop draws piece k at k+1 steps of `size + 1` below the cursor and leaves the cursor one step below the last |
| Label.DrawLines | labelmaker/labelmaker.py:85-109 | the text loop returns exactly the specified rendering |
| Sheet.SkipAsWrittenAlwaysRaises | labelmaker/labelmaker.py:152-164 | as written, the skip code succeeds only when skip <= 0; any positive skip raises |
| Sheet.InnerBreakOverMarks | labelmaker/labelmaker.py:158-163 | with only the inner loop left by `break`, skip 2 on a 2×3 sheet marks three positions where two are intended |
| Sheet.InnerBreakOnFullPage | labelmaker/labelmaker.py:156-163 | as written, a skip of one whole page marks the first position of every row where none is intended |
| Sheet.FirstPositions | labelmaker/labelmaker.py:158-160 | n positions |
| Sheet.SkipPositions | labelmaker/labelmaker.py:152-164 | the repaired nested loops return exactly the intended partial page |
| Sheet.SkipPlanPositions | labelmaker/labelmaker.py:152-164 | the intended page marks skip mod (rows·cols) positions, all 1-based within the grid, in strictly increasing row-major order; one page more skip changes nothing |
| Sheet.DrawSlot | labelmaker/labelmaker.py:147-149 | an empty position draws nothing; a label draws exactly its rendering, and of its contents only the stored lines change |
| Legacy.LegacyLineFormatAgrees | labeler.py:33-41 | the older per-line format rule is the library's `safe_get` rule |
| Legacy.LegacyStoredAgrees | labeler.py:31-41 | the older label stores the same texts and formats as the library label with a scalar shrink policy |
| Legacy.LegacyLabel.constructor | labeler.py:31 | a new label is empty |
| Legacy.LegacyLabel.AddText | labeler.py:49-50 | appends exactly one (text, format) line |
| Legacy.LegacyLabel.SetQr | labeler.py:52-54 | stores data and format as given, with no default format |
| Legacy.LegacyLabel.AddIcons | labeler.py:56-58 | appends the icon exactly when the file exists, else AssertionError |
| Legacy.LegacyLabel.Draw | labeler.py:60-79 | the QR, text and icon loops draw exactly the specified commands |
| Legacy.DrawLegacyText | labeler.py:69-72 | the text loop draws exactly the specified strings, or raises what the first line without a valid size raises |
| Legacy.DrawLegacyIcons | labeler.py:75-79 | the icon loop draws exactly the specified row of 10-point squares |
| Legacy.LegacyCreate | labeler.py:30-47 | succeeds exactly when the lines resolve and there are no icons; a first icon fails on the misspelt `add_icon` |
| Legacy.LegacyIcons | labeler.py:75-79 | one image per icon |
| Legacy.LegacyText | labeler.py:69-73 | one string per text line |
| Legacy.LegacyTextX | labeler.py:61-67 | without a QR code the text starts at 0; a QR code without a format raises TypeError; a QR code that is drawn was built successfully |
| Legacy.LegacyRender | labeler.py:60-79 | a QR code without a format raises TypeError; a drawing has one QR shape when there is QR data, one string per text line and one image per icon, the icons last; every text line has a usable font size |
| Legacy.LegacyTextLayout | labeler.py:69-73 | every line is drawn, with no truncation check; line k is at the start height less the sum of (size+1) over lines 0..k |
| Legacy.LegacyIconLayout | labeler.py:75-79 | icons are 10×10 at y = 10, adjacent, from width − 10n to exactly width |
| Legacy.LegacyPayloadAgrees | labeler.py:128-131 | the older compression rule is the library's rule |
| Config.Lookup | bin/make-labels.py:85-89 | a present key gives its value; a missing one raises KeyError(key) |
| Config.Override | bin/make-labels.py:90-93 | a key is overridden exactly when it is listed and present in the source, and every other entry is kept |
| Config.ApplyPadding | bin/make-labels.py:90-93 | the loop over the four sides overrides exactly the `<side>_padding` keys the spec config holds and keeps everything else |
| Config.Decimals | bin/make-labels.py:96 | every spec value is converted, keys kept, or TypeError |
| Config.SpecArgs | bin/make-labels.py:84-89 | a missing spec raises KeyError("spec"); a success returns the label configuration's own spec object and arguments that hold the sheet width and height |
| Config.ResolveSpec | bin/make-labels.py:84-97 | a missing spec raises KeyError("spec"); a resolved spec comes from successful lookups and has exactly the keys of the sized arguments plus the paddings the spec config supplies, among them the sheet width and height |
| Config.SpecArgsOfWellFormed | bin/make-labels.py:84-89 | for a well-formed configuration the lookups yield the spec config and the spec arguments with the page type's sheet width and height |
| Config.ConvertedFields | bin/make-labels.py:89-96 | after padding and conversion, the sheet size, each supplied padding and every other argument hold their converted values |
| Config.ResolveSpecFields | bin/make-labels.py:84-97 | the resolved spec holds the page type's sheet size, the padding of each side present in the spec config, and every other argument of the label spec, all converted |
| Config.WithDefault | bin/make-labels.py:100-114 | a missing section is off; a present one gets the default exactly when its key is absent |
| Config.DefaultsKeepSuppliedValues | bin/make-labels.py:100-114 | supplied section values are untouched and only the missing key gets its default |
| Config.PrepareConfig | bin/make-labels.py:71-116 | the merge holds the resolved spec, the text section with `lines = 1` by default, the QR section with `compress = False` by default, the label configuration's own icons, and every other entry unchanged |
| Config.GetConfig | bin/make_labels.py:48-81 | the same merge, with the icon table taken from the specs' `icon` entry or `{}` |
| Config.LegacyGetConfig | labeler.py:138-171 | the older merge always fails: with the spec error, or with NameError on `Falsae` once spec and text resolve |
| Binding.ParseIndices | bin/make-labels.py:18 | every piece parses or ValueError; values in order |
| Binding.ColumnOf | bin/make-labels.py:16-20 | an integer spec is the single index; a string spec is its '+'-separated pieces parsed in order, or ValueError |
| Binding.StrictColumnOf | bin/make_labels.py:15-16 | the older parser is the newer one on strings and fails with AttributeError on an integer |
| Binding.ColumnOfSpelling | bin/make-labels.py:16-20 | writing indices as "a+b+…" and parsing gives back the indices, in order, with either parser |
| Binding.CellAt | bin/make-labels.py:23 | a row index in −len..len−1 selects the cell (negative from the end), else IndexError |
| Binding.Cells | bin/make-labels.py:23 | the selected cells in index order, or IndexError |
| Binding.ColumnGet | bin/make-labels.py:22-23 | succeeds exactly when every index is within the row, else IndexError; the value is the selected cells joined by ", " in index order |
| Binding.ColumnGetCons | bin/make-labels.py:22-23 | a column's value is its first cell, then ", ", then the value of its remaining indices; both succeed together |
| Binding.ColumnGetCells | bin/make-labels.py:22-23 | one index gives the cell itself; two give the cells joined by ", " |
| Binding.UsableHeight | bin/make-labels.py:39 | with non-negative padding the usable height is at most the label height in points, and equal without padding |
| Binding.SquareQr | bin/make-labels.py:50-53 | both sides are set; supplied values are untouched; a missing side equals the other; with neither, both are the usable height |
| Binding.MapIcons | bin/make-labels.py:62-64 | each code character maps in order through the table; an unknown code raises KeyError of that one character |
| Binding.GetAll | bin/make-labels.py:58 | one text line per text column, in column order |
| Binding.BindRow | bin/make-labels.py:56-66 | a row's label gets its text columns' values, its QR column's value and its mapped icons, with the shared formats; it fails exactly when one of them fails |
| Binding.BindAll | bin/make-labels.py:55-66 | one label per row, in row order, each the row's binding; on failure, the error of the first row that fails |
| Binding.BindTable | bin/make-labels.py:55-66 | the row loop returns exactly the specified labels |
| Binding.TableFormats | bin/make-labels.py:41-53 | a missing text section fails on `.get`, a missing QR section on `["compress"]`; otherwise the text format and the squared QR format |
| Binding.LabelsFromTable | bin/make-labels.py:37-66 | a format error is returned as it is; an empty table gives no labels; a success has one label per row |
| Binding.LabelsFromTableRows | bin/make_labels.py:21-44 | one label per row; each label's text is the row's text columns, its QR data the QR column, its QR format square, its icons the row's codes through the table |
| Binding.MakeLabelsFromTable | bin/make-labels.py:37-66 | the function computes exactly the specified labels from the usable height |
| Binding.LegacyLabelsFromTable | labeler.py:81-106 | the older function first reads `config["spec"]`, raising KeyError("spec") when it is missing; it succeeds only on an empty table without a QR section; with a QR section it fails on the misspelt `confg` |

## Left out

- I/O and command-line plumbing are not modelled. These are the `main()` functions, `argparse`, opening files, `csv.reader`, `json.load` and `pkgutil.get_data`. The model takes parsed configurations and rows.
- The reportlab and pylabels code is not part of this model:
  - `QrCodeWidget` becomes a record of its arguments.
  - `shapes.String` and `shapes.Image` become draw commands.
  - `Specification`, the grid derivation, pagination, borders and `partial_page` are not modelled. The label height and padding are parameters of `Binding.MakeLabelsFromTable`.
- `textwrap.wrap`, `zlib.compress` and `stringWidth` are parameters. Only their results' lengths and widths matter.
- Fonts default to Helvetica 10, taken as the values in `shapes.STATE_DEFAULTS`.
- Floating point is modelled with exact reals. `Decimal` is modelled as exact. `units.mm` is 72/25.4.
- `Config.Decimal`: a numeric string is converted by Python's `Decimal`. Here it is TypeError.
- `Config.AsKey`: only strings serve as dictionary keys. A numeric or boolean page type or label name raises KeyError in Python; here it raises TypeError.
- `Config.WithDefault`: a section that is not an object is TypeError here. Python accepts a list or string section that already contains the key.
- `Config.AsPair`: a two-character string or a two-key object unpacks in Python. Here only a two-item list unpacks.
- `Binding.TableFormats`: a QR `format` that is not an object is TypeError here. Python would accept a list or string that already contains both keys.
- `Binding.LegacyLabelsFromTable`: the `spec` entry stands for the `Specification` object that `get_config` stores. Reading its label height and paddings is taken to succeed, and the height is not computed, because only the QR branch would use it and that branch fails first.
- `Binding.MakeLabelsFromTable`:
  - The scripts pass the QR data positionally into the `text_shrink` slot of the library label. The model binds each row by keyword into `LabelArgs` and does not construct the mismatched label.
  - Drawing the labels with `make_labels` is not modelled here.
  - The script's own `compress` variable is not modelled. It is read and never used.
- The merged configuration always holds the `text` and `qr` entries, possibly off. This means `make_labels_from_table` of both newer scripts fails on every configuration without both sections. The model states this outright rather than working around it.
- The shared `qr_format` dict is modelled as one value handed to every label. `set_index` writing into the caller's dict is modelled as a new map.
- `Layout.Render`: when drawing fails, the shapes already added to the reportlab drawing are lost. The model returns only the error.
- `Layout.PreambleBudget`: `max_height` drops by 16 with icons, but the text loop never reads it, so text can overlap the icon row. The model computes it and leaves it unused, as the source does.
- `Layout.ScaleStep`: the source's scale loop runs forever on a width of 0 or less. The model returns Err(NonTermination) there.
- Python 2 mixed-type comparisons are not modelled. `Layout.SizeOf` treats a non-numeric `fontSize` as TypeError.
- `Strings.ParseInt`: it does not accept a leading '+'. The column parser never sees one, because the spec is split at '+' first.
- `AliasedDictReader` and `ExcelReader` iteration are file and openpyxl I/O. They also cannot run as written:
  - `csv` and `args` are undefined at labelmaker/util.py:11, and `i` at :20.
  - The trailing comma at :68 makes the field names a 1-tuple.
  - Only their alias naming is modelled.
- Excel cell and date formatting is not modelled: it is `strftime`/`str` of library values.
- The commented-out platypus code is not modelled.
- The labeler script's `make_labels` hands everything to the sheet library. That part is not modelled.

## Findings

| source | as written | input that shows it | evidently intended | confidence | as-written member | corrected member |
|---|---|---|---|---|---|---|
| labelmaker/labelmaker.py:160 | `partial.append(i+1, j+1)` passes two arguments to `list.append` | rows = 2, cols = 3, skip = 1: the first append raises TypeError | append the pair `(i+1, j+1)` | high (not executed) | Sheet.SkipAsWrittenAlwaysRaises | Sheet.SkipPositions |
| labelmaker/labelmaker.py:162-163 | `break` leaves only the inner loop, so every later row still appends its first position | rows = 2, cols = 3, skip = 2 marks (1,1), (1,2), (2,1); skip = 6 marks (1,1), (2,1) | stop after the first `skip mod (rows·cols)` positions | high (not executed) | Sheet.InnerBreakOverMarks | Sheet.SkipPositions |
