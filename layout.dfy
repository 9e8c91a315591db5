/**
 * What the chart generator builds, as values: the title, the header row, the
 * label and bar-area pair of every swimlane and task, and the bars. The
 * methods of `Chart.GanttChartGenerator` build the same trees step by step
 * and are proved to produce exactly these.
 */
module Layout {
  import opened JsValue
  import opened Dom
  import opened Steps

  /** The number of iterations of `for (let i = 1; i <= weeks; i++)`. */
  function ColumnCount(weeks: Value): (n: nat)
  {
    match ToNumber(weeks)
    case Int(k) => if k >= 1 then k else 0
    case NaN => 0
  }

  /** The loop test `i <= weeks` holds exactly for the columns 1..ColumnCount(weeks). */
  lemma ColumnCountBound(weeks: Value, i: int)
    requires 1 <= i
    ensures AtMost(i, weeks) <==> i <= ColumnCount(weeks)
  {
  }

  function WeekCount(config: Value): nat {
    ColumnCount(Prop(config, "weeks"))
  }

  /** `config.weekLabel || 'W'`. */
  function WeekLabel(config: Value): Value {
    Or(Prop(config, "weekLabel"), Str("W"))
  }

  function DivNode(className: ClassName, text: string): Node {
    Node(Div, className, text, map[], map[], [])
  }

  function TitleNode(config: Value): Node {
    DivNode(GanttTitle, TextContent(Prop(config, "title")))
  }

  /** The empty top-left cell of the header row. */
  function HeaderLabelCell(): Node {
    DivNode(HeaderCorner, "")
  }

  /** The header of week i: the text of `${weekLabel}${i}`. */
  function WeekHeaderCell(prefix: Value, i: nat): Node {
    DivNode(Header, ToText(prefix) + NumberText(i))
  }

  /** The headers of weeks 1..k. */
  function WeekHeaders(prefix: Value, k: nat): seq<Node>
    decreases k
  {
    if k == 0 then [] else WeekHeaders(prefix, k - 1) + [WeekHeaderCell(prefix, k)]
  }

  function HeaderRow(config: Value): seq<Node> {
    [HeaderLabelCell()] + WeekHeaders(WeekLabel(config), WeekCount(config))
  }

  /** The span marking column i inside a bar area. */
  function Marker(i: nat): Node {
    Node(Span, NoClass, "", map[DataCol := NumberText(i)], map[], [])
  }

  /** The markers of columns 1..k. */
  function Markers(k: nat): seq<Node>
    decreases k
  {
    if k == 0 then [] else Markers(k - 1) + [Marker(k)]
  }

  /**
   * Appending marker k after the markers of 1..k-1 appends the markers of
   * 1..k. A proof step for `Chart`'s marker loop; it states nothing about the
   * generator.
   */
  lemma AppendMarker(n: Node, k: nat)
    requires k >= 1
    ensures n.Append(Markers(k - 1)).Append([Marker(k)]) == n.Append(Markers(k))
  {
    AppendAppend(n, Markers(k - 1), [Marker(k)]);
  }

  function SwimlaneLabel(name: Value): Node {
    DivNode(SwimlaneRowLabel, TextContent(name))
  }

  function SwimlaneArea(config: Value): Node {
    Node(Div, SwimlaneBarArea, "", map[], map[], Markers(WeekCount(config)))
  }

  function TaskLabel(name: Value): Node {
    DivNode(TaskRowLabel, TextContent(name))
  }

  /** `task.start && task.end`. */
  predicate HasBar(task: Value) {
    Truthy(Prop(task, "start")) && Truthy(Prop(task, "end"))
  }

  /** `config.colors[task.color]`: the palette entry of the task's colour key. */
  function PaletteEntry(config: Value, task: Value): Value {
    Prop(Prop(config, "colors"), ToText(Prop(task, "color")))
  }

  /** `config.colors && config.colors[task.color]`, under `task.color` truthy. */
  predicate HasFill(config: Value, task: Value) {
    Truthy(Prop(task, "color")) && Truthy(Prop(config, "colors")) && Truthy(PaletteEntry(config, task))
  }

  /** The text of `${task.start} / ${task.end}`. */
  function ColumnSpan(task: Value): string {
    ToText(Prop(task, "start")) + " / " + ToText(Prop(task, "end"))
  }

  function BarNode(config: Value, task: Value): Node {
    var color := Prop(task, "color");
    var attrs := if Truthy(color) then map[DataColor := ToText(color)] else map[];
    var fill := if HasFill(config, task) then map[BackgroundColor := ToText(PaletteEntry(config, task))] else map[];
    var text := if Truthy(Prop(task, "showLabel")) then TextContent(Prop(task, "name")) else "";
    Node(Div, GanttBar, text, attrs, fill[GridColumn := ColumnSpan(task)], [])
  }

  function TaskArea(config: Value, task: Value): Node {
    var bar := if HasBar(task) then [BarNode(config, task)] else [];
    Node(Div, TaskBarArea, "", map[], map[], Markers(WeekCount(config)) + bar)
  }

  /** A task's two rows; reading `task.name` of a null or undefined task throws. */
  function TaskRows(config: Value, task: Value): Emitted {
    if Nullish(task) then Emitted([], true)
    else Emitted([TaskLabel(Prop(task, "name")), TaskArea(config, task)], false)
  }

  /** The step `forEach` runs for each task. */
  function TaskStep(config: Value): Value -> Emitted {
    task => TaskRows(config, task)
  }

  /** `tasks.forEach(task => addTask(gridEl, task))`. */
  function TasksRows(config: Value, tasks: seq<Value>): Emitted {
    ForEach(tasks, TaskStep(config))
  }

  /** `swimlane.tasks` when it is an array, otherwise no tasks. */
  function LaneTasks(lane: Value): seq<Value> {
    var tasks := Prop(lane, "tasks");
    if Truthy(tasks) && tasks.Arr? then tasks.items else []
  }

  /** A swimlane's label and bar area, then its tasks' rows; a null or undefined swimlane throws. */
  function LaneRows(config: Value, lane: Value): Emitted {
    if Nullish(lane) then Emitted([], true)
    else Then(Emitted([SwimlaneLabel(Prop(lane, "name")), SwimlaneArea(config)], false),
              TasksRows(config, LaneTasks(lane)))
  }

  /** The step `forEach` runs for each swimlane. */
  function LaneStep(config: Value): Value -> Emitted {
    lane => LaneRows(config, lane)
  }

  /** `swimlanes.forEach(swimlane => addSwimlane(gridEl, swimlane))`. */
  function LanesRows(config: Value, lanes: seq<Value>): Emitted {
    ForEach(lanes, LaneStep(config))
  }

  /** `config.swimlanes`, an array in every configuration that passed validation. */
  function Lanes(config: Value): seq<Value> {
    var lanes := Prop(config, "swimlanes");
    if lanes.Arr? then lanes.items else []
  }

  function GridRows(config: Value): Emitted {
    Then(Emitted(HeaderRow(config), false), LanesRows(config, Lanes(config)))
  }

  /** The grid element before any row is added. */
  function GridShell(config: Value): Node {
    var columns := "minmax(220px, 1.5fr) repeat(" + ToText(Prop(config, "weeks")) + ", 1fr)";
    Node(Div, GanttGrid, "", map[], map[GridTemplateColumns := columns], [])
  }

  function GridNode(config: Value): Node {
    GridShell(config).Append(GridRows(config).nodes)
  }

  /**
   * The container's children after `render`: the title, then the grid unless
   * building it threw.
   */
  function RenderedChildren(config: Value): seq<Node> {
    if GridRows(config).threw then [TitleNode(config)] else [TitleNode(config), GridNode(config)]
  }

  /** The container after `render`: its text cleared and its children replaced; tag, class, attributes and style kept. */
  function RenderInto(before: Node, config: Value): Node {
    before.(text := "", children := RenderedChildren(config))
  }
}
