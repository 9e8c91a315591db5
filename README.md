# Gantt chart generator, modelled in Dafny

This project models the core of `gantt-generator.js`, which is the
`GanttChartGenerator` class. The class is built from a JSON-like
configuration: a title, a number of weeks, an optional week label, an
optional colour palette, and swimlanes holding tasks. The constructor
validates the configuration and throws on the first failed guard. `render`
clears a container and appends a title element and a CSS grid. The grid holds
a header row (an empty corner cell and one cell per week, `W1..Wn`), then,
for every swimlane, a label cell and a bar area, then the same pair for each
of its tasks. Every bar area holds one marker span per week. A task's bar
area also ends in a bar when the task has a truthy `start` and `end`.

The model has these modules:

- `JsValue`: the configuration as a JavaScript value, with the language's
  truthiness, `||`, `String()`, `ToNumber`, `<` and `<=`, and the
  `textContent` setter. The source never checks types and relies on these
  conversions.
- `Dom`: an abstract document tree. A finished element is a `Node` value.
  The element still being filled in is an `Element` object whose methods
  (`AppendChild`, `SetTextContent`, `Clear`, `SetAttribute`, `SetStyle`)
  update its fields in place.
- `Steps`: `forEach` over a list of steps, any of which may throw a
  `TypeError` that abandons the later ones. Its lemmas are proved once for
  any step.
- `Config`: `validateConfig`, as an `Outcome`.
- `Layout`: what the generator builds, as functions of the configuration.
- `Chart`: the class. Its methods build the tree step by step, with loops
  and in-place appends as in the source, and are proved to build exactly
  what `Layout` describes.
- `Properties`: the chart's promised shape, proved about `Layout`. The
  methods' postconditions carry these results over to what `render` builds.

The model follows what the code does, including these places where a
reader of the configuration format might expect otherwise:

- The guard `!weeks || weeks < 1` accepts a `weeks` that converts to NaN
  (for example `"eight"`). Such a chart has no week columns
  (`Properties.NonNumericWeeksAccepted`).
- Malformed swimlanes and tasks are not all skipped. A `null` or
  `undefined` swimlane or task makes reading its `name` throw a
  `TypeError`. That error escapes `render`, after the title has been
  appended and before the grid is, so the container holds only the title
  (`Chart.GanttChartGenerator.Render`, `Properties.GridShape`).
- A bar needs `start` and `end` to be truthy, not merely present, so a
  start or end of `0` suppresses the bar (`Properties.ZeroSuppressesBar`).
  Likewise `showLabel` needs to be truthy, not `true`.
- The grid's children are cells, not rows. The header row is
  `1 + weeks` cells, so the grid has `1 + weeks + 2·|swimlanes| + 2·Σ|tasks|`
  children.

## Model

| member | source | states |
|---|---|---|
| Properties.TypedValidation | gantt-generator.js:15-25 | for a title string, a numeric `weeks` and a swimlane array, validation passes iff the title is non-empty and weeks ≥ 1; otherwise the error is MissingTitle, then BadWeeks, in guard order |
| Properties.SwimlanesMustBeArray | gantt-generator.js:22-24 | once title and weeks pass, validation passes iff `swimlanes` is an array, and otherwise fails with MissingSwimlanes |
| Properties.MissingTitleRejected | gantt-generator.js:16-18 | a non-null configuration whose `title` is missing or falsy (undefined, null, false, 0, "") fails with MissingTitle, whatever its other fields |
| Properties.MissingWeeksRejected | gantt-generator.js:19-21 | a configuration with a title but no `weeks` fails with BadWeeks |
| Properties.RejectedExamples | gantt-generator.js:15-25 | an empty title, zero weeks, a missing `swimlanes` and a null configuration each fail with their own error |
| Properties.AcceptedConfig | gantt-generator.js:15-25 | an accepted configuration is an object with a truthy title and an array of swimlanes, and a numeric `weeks` gives at least one column |
| Properties.NonNumericWeeksAccepted | gantt-generator.js:19 | `weeks: "eight"` passes validation and yields no week columns and a header row of only the corner cell |
| Chart.GanttChartGenerator.Create | gantt-generator.js:7-10 | construction fails exactly when validation fails, with validation's error; otherwise the new object holds the configuration unchanged |
| Chart.GanttChartGenerator.constructor | gantt-generator.js:7-8 | the object stores the configuration it was given |
| Chart.GanttChartGenerator.Render | gantt-generator.js:31-47 | a null container is only reported; otherwise the container keeps its tag, class, attributes and style, loses its text, and holds exactly the title and the grid, or only the title when building the grid threw, whatever it held before, so rendering the same configuration again gives the same children |
| Chart.GanttChartGenerator.CreateTitle | gantt-generator.js:52-57 | a fresh `gantt-title` div whose text is the configured title |
| Chart.CreateDiv | gantt-generator.js:119-121 | a fresh div of the given class whose text is what `textContent = v` stores |
| Chart.GanttChartGenerator.CreateGrid | gantt-generator.js:62-78 | a fresh grid holding the header row and then the rows of every swimlane; it throws exactly when those rows throw |
| Chart.GanttChartGenerator.CreateGridShell | gantt-generator.js:63-67 | a fresh `gantt-grid` div whose column template names the configured weeks |
| Chart.GanttChartGenerator.AddHeaderRow | gantt-generator.js:83-97 | appends the corner cell and then the header of each week 1..weeks, and nothing else |
| Chart.GanttChartGenerator.AddSwimlanes | gantt-generator.js:73-75 | appends each swimlane's rows in order, stopping at the first throw, which it reports |
| Chart.GanttChartGenerator.AddSwimlane | gantt-generator.js:102-112 | appends the swimlane's label and bar area, then its tasks' rows when `tasks` is an array; a null swimlane throws before appending anything |
| Chart.GanttChartGenerator.AddTasks | gantt-generator.js:107-111 | appends each task's rows in order, stopping at the first throw, which it reports |
| Chart.GanttChartGenerator.AddSwimlaneHeader | gantt-generator.js:117-136 | appends the swimlane label and a bar area holding only the week markers |
| Chart.GanttChartGenerator.AddTask | gantt-generator.js:141-166 | appends the task's label and its bar area (markers, then the bar iff start and end are truthy); a null task throws before appending anything |
| Chart.GanttChartGenerator.CreateBarArea | gantt-generator.js:125-133 | a fresh bar area of the given class holding the markers of weeks 1..weeks |
| Chart.CreateMarker | gantt-generator.js:130-131 | a fresh `span` whose only attribute, `data-col`, is String(i): the marker of column i, as `Layout.Marker` defines it |
| Chart.GanttChartGenerator.AddMarkers | gantt-generator.js:129-133 | appends one marker span per week 1..weeks, in order, and nothing else |
| Chart.GanttChartGenerator.CreateBar | gantt-generator.js:171-194 | a fresh `gantt-bar` div with exactly the colour tag, fill, column span and text that `BarNode` describes |
| Properties.TitleText | gantt-generator.js:52-57 | the title element's only text is the configured title, and it is the container's first child |
| Properties.HeaderRowShape | gantt-generator.js:83-97 | the header row is the empty corner cell, then weeks cells, where cell i is a `gantt-header` reading `weekLabel` followed by i |
| Properties.HeaderRowLength | gantt-generator.js:90-96 | the header row has one cell per week besides the corner |
| Properties.WeekHeadersAt | gantt-generator.js:90-96 | the week headers are k cells, where cell i is the header of week i |
| Properties.WeekLabelDefault | gantt-generator.js:90 | an unset or empty `weekLabel` becomes "W"; a truthy one is used as given |
| Properties.HeaderRowDefaultLabel | gantt-generator.js:90-96 | three weeks and no `weekLabel` give the header texts "", "W1", "W2", "W3" |
| Properties.MarkersAt | gantt-generator.js:129-133 | the markers of weeks 1..k are k spans, the i-th being the marker of column i |
| Properties.MarkersNoBars | gantt-generator.js:129-133 | no marker is a bar |
| Properties.MarkerColumns | gantt-generator.js:129-133 | marker i is an empty span whose only attribute, `data-col`, reads back as the number i |
| Properties.SwimlaneAreaShape | gantt-generator.js:124-135 | a swimlane's bar area holds exactly the markers of the weeks and no bar |
| Properties.TaskAreaShape | gantt-generator.js:148-165 | a task's bar area holds the markers, then one bar iff `start` and `end` are both truthy, and no other bar |
| Properties.ZeroSuppressesBar | gantt-generator.js:160 | a start or end of 0 leaves the bar area with only its markers |
| Properties.BarRules | gantt-generator.js:171-194 | `data-color` is set iff the colour is truthy; the fill is set iff the palette entry is truthy; the grid column is always the span text; the bar's text is the task name iff `showLabel` is truthy and is otherwise empty |
| Properties.BarSpanUnclamped | gantt-generator.js:160-163 | for numeric non-zero positions the bar area ends in the bar, whose grid column reads `start / end` whatever the week count |
| Properties.PaletteExample | gantt-generator.js:7-191 | the chart titled "Plan" over 4 weeks with swimlane A holding task T1 from 1 to 3 in blue and palette `{blue: "#00f"}` passes validation; the grid has 9 children, the ninth being T1's bar area: four markers, then a bar tagged "blue", filled "#00f", spanning "1 / 3", with no text |
| Properties.SingleTaskRows | gantt-generator.js:62-78 | with four weeks and one swimlane holding one non-null task, the grid does not throw, holds 9 children, and the ninth is that task's bar area |
| Properties.UnresolvedColorTagged | gantt-generator.js:176-183 | a colour key with no palette entry is still recorded as `data-color`, and no fill is set |
| Properties.TasksRowsThrew | gantt-generator.js:108-110 | the tasks' rows throw iff some task is null or undefined |
| Properties.TasksRowsSize | gantt-generator.js:108-110 | without a throw, the tasks contribute two rows each |
| Properties.TasksRowsLayout | gantt-generator.js:108-110 | without a throw, rows 2j and 2j+1 are task j's label and bar area, for every task in order |
| Properties.LaneRowsThrew | gantt-generator.js:102-112 | a swimlane's rows throw iff it, or one of its tasks, is null or undefined |
| Properties.LaneRowsSize | gantt-generator.js:102-112 | without a throw, a swimlane contributes two rows plus two per task |
| Properties.LaneRowsLayout | gantt-generator.js:102-112 | without a throw, a swimlane's rows are its label and marker-only area, then each task's pair in order; without a task array, only its own pair |
| Properties.LanesEmit | gantt-generator.js:73-75 | well-formed swimlanes emit two rows each plus two per task |
| Properties.LanesRowsThrew | gantt-generator.js:73-75 | the swimlanes' rows throw iff some swimlane or task is null or undefined |
| Properties.LanesRowsSize | gantt-generator.js:73-75 | without a throw, the swimlanes contribute two rows per swimlane plus two per task |
| Properties.LaneOffsetEmits | gantt-generator.js:73-75 | without a throw, the swimlanes before j contribute `LaneOffset(lanes, j)` rows |
| Properties.LanesRowsAt | gantt-generator.js:73-75 | without a throw, swimlane j's rows sit unchanged and contiguous at `LaneOffset(lanes, j)`, so swimlanes keep their configuration order |
| Properties.GridShape | gantt-generator.js:62-78 | the grid throws iff a swimlane or task is null or undefined; otherwise it holds the header row followed by the swimlanes' rows, 1 + weeks children plus two per swimlane and two per task |
| Properties.RenderedShape | gantt-generator.js:38-46 | with well-formed swimlanes the container's children are exactly the title and the grid, and the grid has 1 + weeks children plus two per swimlane and two per task |
| Layout.ColumnCountBound | gantt-generator.js:91 | the loop test `i <= weeks` holds exactly for the columns 1..ColumnCount(weeks) |
| JsValue.NumberTextRoundTrip | gantt-generator.js:131 | the text of an integer, as stored in `data-col` or a header, converts back to that integer |
| JsValue.DecimalRoundTrip | gantt-generator.js:94 | a decimal spelling is non-empty, starts with a digit and reads back as its number |
| JsValue.ToNumberThroughText | gantt-generator.js:19 | converting an array or object to a number agrees with converting its string form |
| JsValue.CommaIsNaN | gantt-generator.js:19 | a string holding a comma, such as a joined array of two or more items, converts to NaN |
| JsValue.WordIsNaN | gantt-generator.js:19 | a string with no leading sign whose last character is not a digit, such as "true" or "[object Object]", converts to NaN |
| Dom.Element.constructor | gantt-generator.js:53 | `createElement` gives a blank element of the tag |
| Dom.Element.AppendChild | gantt-generator.js:42 | only the element's children change, gaining the child at the end |
| Dom.Element.SetTextContent | gantt-generator.js:55 | the text becomes the stored text and the children are removed; nothing else changes |
| Dom.Element.Clear | gantt-generator.js:38 | the text and the children are removed; nothing else changes |
| Dom.Element.SetAttribute | gantt-generator.js:131 | only the named attribute changes, to the value's string form |
| Dom.Element.SetStyle | gantt-generator.js:186 | only the named style property changes, to the value's string form |
| Steps.ForEachThrew | gantt-generator.js:73-75 | `forEach` throws iff the step of some element throws |
| Steps.ForEachStopAtThrow | gantt-generator.js:73-75 | after a step throws, the later elements add nothing |
| Steps.ForEachSize | gantt-generator.js:73-75 | without a throw, `forEach` appends all the elements of all the steps |
| Steps.ForEachAt | gantt-generator.js:73-75 | without a throw, step j's elements sit unchanged and contiguous after those of the steps before it |
| Steps.ForEachUniformAt | gantt-generator.js:108-110 | when every step appends c elements, step j's sit at c·j up to c·(j + 1) |

## Left out

- `exportAsPNG` (gantt-generator.js:199-222) is not modelled. It depends on a
  host rasterization library, promises, `alert`, canvas data URLs and a
  synthetic click.
- `loadGanttChart` (gantt-generator.js:228-247) is not modelled. It fetches
  over the network and parses JSON asynchronously. Its
  `new GanttChartGenerator(config)` then `render(container)` sequence is
  `Chart.GanttChartGenerator.Create` followed by `Render`.
- The module export shim (gantt-generator.js:250-252) is not modelled.
- The `console.error` call of `render` (gantt-generator.js:33) is
  represented only as the `ContainerMissing` status.
- The browser DOM is replaced by `Dom.Node` values and the `Dom.Element`
  class. An element is appended as a snapshot of its fields. This is
  equivalent because the source never changes an element after appending
  it. Element identity and aliasing are not modelled.
- CSS values (`gridTemplateColumns`, `gridColumn`, `backgroundColor`) are
  stored as the text assigned to them. The model does not validate them
  as a browser would, and does not interpret them as layout.
- `JsValue.Value` models JSON values and `undefined` only. There are no
  functions or symbols. Numbers are integers: fractions, `-0`, `Infinity`,
  `NaN` values in the configuration, and `String()`'s exponent form for
  magnitudes of 10^21 and above are not modelled.
- JsValue.StringToNumber: reads only an optional sign followed by decimal
  digits. JavaScript also accepts surrounding whitespace, a decimal point,
  an exponent, hexadecimal and `"Infinity"`. The model reads such strings
  (for example `"4.0"` as `weeks`) as NaN.
- JsValue.Prop: reads only the own properties of plain objects. Array
  elements and `length`, string characters, and members inherited from
  `Object.prototype` are read as `undefined`. So a colour key such as
  `"toString"`, or a palette given as an array, finds no palette entry in
  the model.
- Layout.Lanes: returns no swimlanes when `swimlanes` is not an array. That
  case cannot arise for a constructed chart, because the constructor
  requires a configuration that passed validation.
- The configuration is held as an immutable value. A caller mutating the
  configuration object after construction is not modelled.
- Exceptions are limited to the `TypeError` from reading `name` of a `null`
  or `undefined` swimlane or task. Other throws are not modelled: see the
  `JsValue.ToText` and `JsValue.ToNumber` lines below.
- JsValue.ToText: every object converts to "[object Object]". An own
  `toString` key is not modelled. In JavaScript such a key, given a
  non-callable value by `JSON.parse`, makes `String(o)`, a template
  literal, `setAttribute` and `textContent =` throw a `TypeError`, because
  the inherited `valueOf` then returns the object itself. The model
  then renders the text "[object Object]" where the source's `render` would
  throw (for example a task `start` of `{"toString": 1}` at
  gantt-generator.js:186).
- JsValue.ToNumber: every object converts to NaN. With an own non-callable
  `toString` key, `o < 1` and `i <= o` throw a `TypeError` in JavaScript. So `weeks: {"toString": 1}` makes the constructor throw at
  gantt-generator.js:19, where `Config.ValidateConfig` passes it.
