# graph-slicer, modelled in Dafny

This project models the interactive slicing engine of graph-slicer. The engine is a React component that:

- loads a CSV file and plots one column against another;
- lets the user drag two vertical and two horizontal reference lines ("pointers") across the chart;
- continuously measures the distance between each pair of lines, and the greatest and least Y value among the rows whose X value lies between the two vertical lines.

A page above it keeps an append-only list of chart keys. Each key mounts one independent slicer.

Modules, one concern each:

- `Wrappers`, `JsNumber` (js_number.dfy): JavaScript numbers as `Option<real>`, with `None` standing for NaN.
  - Every comparison with NaN is false.
  - `Math.abs`, and `Math.min`/`Math.max` over one or more arguments, propagate NaN exactly as in JavaScript.
- `Csv` (csv.dfy): the upload handler's parsing pipeline, as functions:
  - `String.prototype.split` with a one-character separator;
  - `String.prototype.trim`, with JavaScript's whitespace set;
  - `parseFloat`: leading whitespace, optional sign, digits, fraction, exponent, and NaN when no number starts after the sign;
  - the blank-line filter and the per-row field parse.
- `Axes` (axes.dfy): the domain-from-column computation, the 30%/70% default lines, the pixel-to-data transform `getGraphCoordinates` and the clamp a drag applies.
- `Measure` (measure.dfy): the measurement effect as a pure function of the state, with the window filter and its statistics.
- `Slicer` (slicer.dfy): one slicer instance as a class. Its fields are the component's state. Each event handler is a method with a field-granular `modifies` frame, so each method's contract also states which fields stay unchanged.
- `Charts` (charts.dfy): the chart-key list as a class with the `charts[i] == i` invariant.

Modelling notes:

- **Equal axis bounds.** `getGraphCoordinates` divides the plot size by `hi - lo` with no guard. When the bounds are equal, JavaScript computes the scale as `+Infinity`, and `x / Infinity` is `0`. So the coordinate is exactly `lo` on the X axis and `hi` on the Y axis. `Axes.ToDataX` and `Axes.ToDataY` model that branch explicitly instead of excluding it with a precondition.
- **Where distinct bounds matter.** On equal bounds every pixel maps to the same value, so the round-trip lemmas require distinct bounds. The linear form of the transform holds on every numeric domain. So does the fact that the plot's edges map to the domain's ends.
- **Axis-bound fields.** `handleXAxisChange(min, max)` and `handleYAxisChange` receive the edited text and the other bound. The other bound is the number currently shown, and `parseFloat` of a number's own text gives that number back. So the model's `EditXAxisMin` and its siblings parse only the edited text and keep the other bound as it is.
- **Column selection.** The column is the index from the drop-down, which `parseInt` turns back into the number it came from. The model takes it as a `nat`.
- **How a drag starts.** `handlePointerMouseDown` is defined but attached to no element: the chart container listens only for mouse move, mouse up and mouse leave, and the reference lines only for click. So a drag starts with a line's click, which fires after the container's mouse up has cleared any drag. The line then follows the pointer with the button released, until the next mouse up or mouse leave. `Slicer.GraphSlicer.PointerMouseDown` models the handler as written; only `Slicer.GraphSlicer.ReferenceLineClick` is reachable from the page.
- **Clamping on reversed bounds.** The drag clamp is `Math.max(lo, Math.min(hi, v))`. After a manual edit the bounds may be reversed (lo > hi), and then the clamp always yields lo. `Axes.Clamp` states this case explicitly.

## Model

| member | source | states |
|---|---|---|
| JsNumber.Abs | resources/js/components/GraphSlicer.jsx:154-155 | `Math.abs` is NaN exactly for NaN, otherwise non-negative and equal to the argument or its negation |
| JsNumber.Min | resources/js/components/GraphSlicer.jsx:163-164 | `Math.min(a, b)` is NaN iff an argument is NaN, otherwise it is one of the two and bounds both from below |
| JsNumber.Max | resources/js/components/GraphSlicer.jsx:163-164 | `Math.max(a, b)` is NaN iff an argument is NaN, otherwise it is one of the two and bounds both from above |
| JsNumber.Add | resources/js/components/GraphSlicer.jsx:68 | a sum is a number exactly when both operands are |
| JsNumber.Sub | resources/js/components/GraphSlicer.jsx:68 | a difference is a number exactly when both operands are |
| JsNumber.Mul | resources/js/components/GraphSlicer.jsx:68 | a product is a number exactly when both operands are |
| JsNumber.MinOf | resources/js/components/GraphSlicer.jsx:168-170 | `Math.min(...vs)` (also the domain at lines 63-64) on a non-empty list is NaN iff some entry is NaN; otherwise it is an entry and no entry is smaller |
| JsNumber.MaxOf | resources/js/components/GraphSlicer.jsx:168-170 | `Math.max(...vs)` (also the domain at lines 63-64) on a non-empty list is NaN iff some entry is NaN; otherwise it is an entry and no entry is larger |
| JsNumber.MinOfLeMaxOf | resources/js/components/GraphSlicer.jsx:63-64 | on a NaN-free non-empty list the minimum does not exceed the maximum |
| Csv.Split | resources/js/components/GraphSlicer.jsx:43 | `split` yields at least one piece and no piece contains the separator |
| Csv.JoinSplit | resources/js/components/GraphSlicer.jsx:43 | joining the pieces with the separator gives back the text: nothing is lost or added |
| Csv.SplitCount | resources/js/components/GraphSlicer.jsx:53 | there is exactly one more piece than there are separators |
| Csv.SplitNoSeparator | resources/js/components/GraphSlicer.jsx:43 | text without the separator is a single piece |
| Csv.SplitFirst | resources/js/components/GraphSlicer.jsx:43 | splitting `a + sep + b`, with no separator in a, gives a followed by the pieces of b |
| Csv.TrimStart | resources/js/components/GraphSlicer.jsx:46 | what is dropped is all whitespace, and what remains does not start with whitespace |
| Csv.TrimStartSuffix | resources/js/components/GraphSlicer.jsx:46 | what TrimStart leaves is a suffix of the text |
| Csv.TrimEnd | resources/js/components/GraphSlicer.jsx:46 | the result is a prefix, what is dropped is all whitespace, and the result does not end with whitespace |
| Csv.Trim | resources/js/components/GraphSlicer.jsx:46 | `trim` (also at lines 51 and 53) never lengthens the text and leaves no whitespace at either end; TrimShape, TrimEmptyIffBlank and TrimUnchanged characterise it fully |
| Csv.TrimShape | resources/js/components/GraphSlicer.jsx:46 | `trim` returns a slice of the text with only whitespace cut from either end, and no whitespace at either end |
| Csv.TrimEmptyIffBlank | resources/js/components/GraphSlicer.jsx:51 | a line trims to the empty string iff it consists only of whitespace (both directions) |
| Csv.TrimUnchanged | resources/js/components/GraphSlicer.jsx:46 | text with no whitespace at either end is its own trim |
| Csv.DigitRun | resources/js/components/GraphSlicer.jsx:53 | the digit prefix parseFloat reads is all digits, and the character after it is not a digit |
| Csv.ParseUnsignedDigits | resources/js/components/GraphSlicer.jsx:53 | an unsigned digit string parses to the whole number it denotes |
| Csv.ParseDecimalString | resources/js/components/GraphSlicer.jsx:53 | the decimal text of any whole number n, with or without a leading minus, parses back to n or -n |
| Csv.NatValueDecimalString | resources/js/components/GraphSlicer.jsx:53 | the digits of n denote n |
| Csv.ParseFloatNoDigits | resources/js/components/GraphSlicer.jsx:53 | a field without any digit parses to NaN rather than failing |
| Csv.ParseFloat | resources/js/components/GraphSlicer.jsx:53 | `parseFloat` (also at lines 100, 105, 359, 406 and 426) is NaN exactly when, after the leading whitespace and an optional sign, the text starts neither with a digit nor with a dot and a digit; blank text is NaN. Its value is stated by ParseFloatSign with ParseUnsignedDigits and ParseUnsignedDecimal, for whole numbers and decimals without an exponent |
| Csv.ParseUnsigned | resources/js/components/GraphSlicer.jsx:53 | the unsigned decimal prefix is NaN exactly when the text starts neither with a digit nor with a dot and a digit |
| Csv.ParseUnsignedDecimal | resources/js/components/GraphSlicer.jsx:53 | digits, a dot and digits (`12.5`, `.5`, `12.`) parse to the whole part plus the fraction the digits after the dot denote |
| Csv.ParseFloatSign | resources/js/components/GraphSlicer.jsx:53 | text that starts with a digit or a dot parses as its unsigned value, and with a leading minus as that value negated |
| Csv.DigitRunUpTo | resources/js/components/GraphSlicer.jsx:53 | the digit prefix ends exactly at the first character that is not a digit |
| Csv.Map | resources/js/components/GraphSlicer.jsx:52-53 | `map` keeps the length and applies the function at every position |
| Csv.NonBlank | resources/js/components/GraphSlicer.jsx:50-51 | the blank-line filter never adds lines |
| Csv.NonBlankMembers | resources/js/components/GraphSlicer.jsx:51 | a line survives the filter iff it is one of the lines and does not trim to the empty string |
| Csv.NonBlankAppend | resources/js/components/GraphSlicer.jsx:50-51 | the filter works line by line, so it keeps the order of the lines it keeps |
| Csv.NonBlankKeepsAll | resources/js/components/GraphSlicer.jsx:51 | when no line is blank, every line is kept |
| Csv.ParseField | resources/js/components/GraphSlicer.jsx:53 | `parseFloat(val.trim())`: a blank field is NaN |
| Csv.ParseRow | resources/js/components/GraphSlicer.jsx:52-57 | a line gives at least one cell (an empty line one NaN cell); RowArity states the cell count and each cell |
| Csv.RowArity | resources/js/components/GraphSlicer.jsx:53-57 | a row has exactly one cell per comma-separated field (commas + 1), and cell k (`col<k>`) is `parseFloat` of trimmed field k |
| Csv.Parse | resources/js/components/GraphSlicer.jsx:43-58 | the `onload` parse gives at least one header and fewer rows than the text has lines; ParseShape and ExampleParse state the headers and rows |
| Csv.ParseShape | resources/js/components/GraphSlicer.jsx:43-58 | one header per field of line 0, each trimmed; row i is the parse of the i-th non-blank line after line 0 |
| Csv.ExampleParse | resources/js/components/GraphSlicer.jsx:43-58 | `"h1,h2\n1,2\n3,4\n"` parses to headers h1, h2 and rows (1, 2), (3, 4), with the trailing empty line dropped |
| Axes.DomainOf | resources/js/components/GraphSlicer.jsx:62-65 | a column's domain is NaN iff the column holds a NaN; otherwise both bounds are values of the column, lo <= hi, and every value lies between them |
| Axes.DefaultMarkers | resources/js/components/GraphSlicer.jsx:68 | the default lines are exactly two |
| Axes.DefaultMarkersInside | resources/js/components/GraphSlicer.jsx:68 | the lines are NaN when a bound is; otherwise they sit at lo + 0.3(hi - lo) and lo + 0.7(hi - lo), and with lo <= hi they satisfy lo <= first <= second <= hi |
| Axes.ToDataX | resources/js/components/GraphSlicer.jsx:109-122 | the X coordinate of `getGraphCoordinates` is a number exactly when both X bounds are; ToDataLinear, ToDataEndpoints and ToDataXRoundTrip state its value |
| Axes.ToDataY | resources/js/components/GraphSlicer.jsx:109-122 | the Y coordinate of `getGraphCoordinates` is a number exactly when both Y bounds are; ToDataLinear, ToDataEndpoints and ToDataYRoundTrip state its value |
| Axes.ToDataLinear | resources/js/components/GraphSlicer.jsx:109-122 | the transform is the linear interpolation of the domain across the plot area, X from lo at the left edge and Y downward from hi at the top edge, equal bounds included |
| Axes.FlatSpan | resources/js/components/GraphSlicer.jsx:115-120 | on equal bounds the Infinity scale makes the coordinate the bound itself, which agrees with the interpolation |
| Axes.SteepSpan | resources/js/components/GraphSlicer.jsx:115-120 | on distinct bounds dividing by the scale equals multiplying by span / plot size |
| Axes.ToDataEndpoints | resources/js/components/GraphSlicer.jsx:112-120 | the plot's left and right edges map to the X domain's lo and hi; the top and bottom edges map to the Y domain's hi and lo |
| Axes.ToDataXRoundTrip | resources/js/components/GraphSlicer.jsx:112-119 | on distinct bounds the X transform and the X drawing scale are inverse to each other, in both directions |
| Axes.ToDataYRoundTrip | resources/js/components/GraphSlicer.jsx:113-120 | on distinct bounds the Y transform and the Y drawing scale are inverse to each other, in both directions |
| Axes.Clamp | resources/js/components/GraphSlicer.jsx:137-141 | `max(lo, min(hi, v))` is NaN iff an input is; with lo <= hi it lies in [lo, hi], keeps v when inside and gives lo (hi) below (above); with lo > hi it is lo |
| Measure.Cell | resources/js/components/GraphSlicer.jsx:163-164 | the cell `col<c>` of a row is a number only for a column the row has; a missing column reads as NaN |
| Measure.Column | resources/js/components/GraphSlicer.jsx:168 | one value per row, entry i being row i's cell in the column (NaN when the row lacks it) |
| Measure.InWindow | resources/js/components/GraphSlicer.jsx:163-164 | the window test holds only when the value and both lines are numbers; InWindowSymmetric states it in full |
| Measure.InWindowSymmetric | resources/js/components/GraphSlicer.jsx:162-165 | the window test is x in [min, max] of the two lines, bounds inclusive, false on NaN, and does not depend on the lines' order |
| Measure.Window | resources/js/components/GraphSlicer.jsx:162-165 | the filter keeps no more rows than there are, and only rows inside the window |
| Measure.WindowMembers | resources/js/components/GraphSlicer.jsx:162-165 | a row is kept iff it is a row of the data and its X value passes the window test |
| Measure.WindowAppend | resources/js/components/GraphSlicer.jsx:162-165 | the filter keeps the rows' order |
| Measure.WindowSwap | resources/js/components/GraphSlicer.jsx:163-164 | swapping the two X lines keeps the same rows |
| Measure.Compute | resources/js/components/GraphSlicer.jsx:152-180 | the measurement effect: both distances are non-negative or NaN, and with no data yMax = yMin = 0; Distances, ComputeSwap, EmptyWindowIsZero and WindowExtremes state each field |
| Measure.Distances | resources/js/components/GraphSlicer.jsx:154-155 | xDistance is abs(x1 - x0) and yDistance is abs(y1 - y0): NaN exactly when a line is, otherwise non-negative, the difference up to sign, and unchanged when the pair is swapped |
| Measure.ComputeSwap | resources/js/components/GraphSlicer.jsx:152-180 | swapping either pair of lines changes nothing in the measurement |
| Measure.EmptyWindowIsZero | resources/js/components/GraphSlicer.jsx:158-172 | with no data, or no row in the window, yMax = yMin = 0 |
| Measure.WindowExtremes | resources/js/components/GraphSlicer.jsx:167-171 | over a non-empty window the statistics are NaN iff a windowed Y is NaN; otherwise both are Y values of windowed rows, yMin <= yMax, and every windowed Y lies between them |
| Measure.ExampleWindow | resources/js/components/GraphSlicer.jsx:152-180 | rows (0,0.01) (1,0.05) (2,0.09) (3,0.15) with X lines 0.5 and 2.5 and Y lines 0.06 and 0.12 give distances 2 and 0.06, max 0.09 and min 0.05 |
| Slicer.GraphSlicer.constructor | resources/js/components/GraphSlicer.jsx:14-21 | no data or headers, columns 0 and 1, Y domain [0, 0.2], X domain [0, 100], X lines 20 and 60, Y lines 0.06 and 0.12, no drag |
| Slicer.GraphSlicer.Measurements | resources/js/components/GraphSlicer.jsx:152-180 | the measurement shown for the current state: each distance is NaN exactly when a line of its pair is, and with no data yMax = yMin = 0 |
| Slicer.GraphSlicer.LoadTable | resources/js/components/GraphSlicer.jsx:59-69 | headers and data are replaced; the X domain becomes the selected column's extent and the X lines its 30%/70% points, inside the domain; Y domain, Y lines, columns and drag are untouched |
| Slicer.GraphSlicer.HandleFileUpload | resources/js/components/GraphSlicer.jsx:41-70 | headers and data are the parse of the text, with the X domain and X lines reset as in LoadTable and nothing else changed |
| Slicer.GraphSlicer.HandleColumnChange | resources/js/components/GraphSlicer.jsx:75-96 | the chosen axis takes the column; with data, X resets the X domain and X lines and Y resets only the Y domain; without data no domain or line changes |
| Slicer.GraphSlicer.EditXAxisMin | resources/js/components/GraphSlicer.jsx:104-106 | the lower X bound becomes `parseFloat` of the field and the upper bound is kept; no line is moved |
| Slicer.GraphSlicer.EditXAxisMax | resources/js/components/GraphSlicer.jsx:104-106 | the upper X bound becomes `parseFloat` of the field and the lower bound is kept |
| Slicer.GraphSlicer.EditYAxisMin | resources/js/components/GraphSlicer.jsx:99-101 | the lower Y bound becomes `parseFloat` of the field and the upper bound is kept |
| Slicer.GraphSlicer.EditYAxisMax | resources/js/components/GraphSlicer.jsx:99-101 | the upper Y bound becomes `parseFloat` of the field and the lower bound is kept |
| Slicer.GraphSlicer.EditXPointer | resources/js/components/GraphSlicer.jsx:404-407 | X line i takes the parsed value unclamped (the slider at lines 357-360 does the same); the other line and everything else are unchanged |
| Slicer.GraphSlicer.EditYPointer | resources/js/components/GraphSlicer.jsx:424-427 | Y line i takes the parsed value unclamped; the other line and everything else are unchanged |
| Slicer.GraphSlicer.PointerMouseDown | resources/js/components/GraphSlicer.jsx:125-128 | the handler, attached to no element, makes the drag (axis, i) and changes nothing else |
| Slicer.GraphSlicer.ReferenceLineClick | resources/js/components/GraphSlicer.jsx:183-186 | clicking a line makes the drag (axis, i), the only way a drag starts; nothing else changes |
| Slicer.GraphSlicer.MouseUp | resources/js/components/GraphSlicer.jsx:147-149 | releasing the button or leaving the chart ends the drag and changes nothing else |
| Slicer.GraphSlicer.MouseMove | resources/js/components/GraphSlicer.jsx:131-144 | without a drag nothing changes; dragging line i of an axis sets only that line to the clamped data coordinate, which lies in [lo, hi] when the bounds are ordered numbers; the other line and the other axis keep their values |
| Charts.AddChartTo | resources/js/components/InteractiveGraph.jsx:9-11 | `[...prev, prev.length]` is one longer, has the old list as a prefix and ends with the old length |
| Charts.AddChartKeepsKeys | resources/js/components/InteractiveGraph.jsx:10 | appending the old length keeps every key equal to its position |
| Charts.PositionalKeysDistinct | resources/js/components/InteractiveGraph.jsx:19-20 | keys equal to their positions are pairwise distinct, so no two slicer instances share a key |
| Charts.AfterAddsIsRange | resources/js/components/InteractiveGraph.jsx:7-11 | after n presses of the add button the list is exactly 0, 1, ..., n |
| Charts.ChartList.constructor | resources/js/components/InteractiveGraph.jsx:7 | the page starts with the single key 0 |
| Charts.ChartList.AddChart | resources/js/components/InteractiveGraph.jsx:9-11 | the list grows by exactly one, the old list is kept in place as a prefix, and keys stay equal to their positions |

## Left out

- File reading: the asynchronous `FileReader` (GraphSlicer.jsx:38-41, 71) is I/O. The model starts from the text it delivers.
- DOM geometry: `getBoundingClientRect` and the event's client coordinates are not modelled. The transform takes the pointer's offset from the chart's corner (`relX`, `relY`) as input.
- Rendering: the Recharts chart, the drop-downs' markup, the slider styling and `<style jsx>` are presentation and live in an external library.
- The measurement effect's scheduling: React's re-rendering and effect timing are not modelled. `Slicer.GraphSlicer.Measurements` recomputes the measurement from the current state.
- Display and debugging: the `toFixed` formatting and the `console.log` effect have no bearing on state.
- Floating point: numbers are mathematical reals, with no rounding. Infinities are not represented.
- Slicer.GraphSlicer.LoadTable, Slicer.GraphSlicer.HandleFileUpload: require at least one data row. With none, `Math.min(...[])` is `+Infinity` and `Math.max(...[])` is `-Infinity`, and the model has no infinities.
- Csv.ParseFloat: does not model that the text "Infinity" parses to an infinity; such a field is NaN here.
- Csv.IsWhitespace: uses the code points ECMAScript lists as WhiteSpace and LineTerminator: tab, line feed, vertical tab, form feed, carriage return, space, no-break space, the Zs space separators, the line and paragraph separators and the byte-order mark. It is not a general Unicode table.
- Csv.ParseFloat, Csv.ParseUnsigned: the NaN condition is stated for every text, but the value only for whole numbers (`Csv.ParseUnsignedDigits`) and decimals without an exponent (`Csv.ParseUnsignedDecimal`). The exponent part is defined but no lemma states its value.
- Csv.Split: models `split` only with a one-character separator, which is all the component uses.
- Slicer.GraphSlicer.HandleColumnChange: takes the column as a number. The `parseInt` of the drop-down's value is not modelled.
