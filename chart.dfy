/**
 * The chart generator object: it keeps the configuration it was built with
 * and renders it into a container by appending elements step by step.
 */
module Chart {
  import opened JsValue
  import opened Dom
  import opened Config
  import opened Layout
  import opened Steps

  /**
   * How `render` ended: it filled the container, found no container (it logs
   * and returns), or a TypeError escaped while the grid was being built.
   */
  datatype RenderStatus = Rendered | ContainerMissing | Threw

  /** `new GanttChartGenerator(config)`: an object, or the error thrown. */
  datatype Construction = Built(chart: GanttChartGenerator) | Rejected(error: ConfigError)

  /** A `div` with the given class and `textContent = content`, not yet attached. */
  method CreateDiv(className: ClassName, content: Value) returns (el: Element)
    ensures fresh(el)
    ensures el.Snapshot() == DivNode(className, TextContent(content))
  {
    el := new Element(Div);
    el.className := className;
    el.SetTextContent(content);
  }

  /** A column marker: a `span` whose `data-col` is the column i, not yet attached. */
  method CreateMarker(i: nat) returns (cell: Element)
    ensures fresh(cell)
    ensures cell.Snapshot() == Marker(i)
  {
    cell := new Element(Span);
    cell.SetAttribute(DataCol, Num(i));
  }

  class GanttChartGenerator {
    const config: Value

    constructor (config: Value)
      requires ValidateConfig(config).Pass?
      ensures this.config == config
    {
      this.config := config;
    }

    /** Store the configuration and validate it, throwing on the first failed guard. */
    static method Create(config: Value) returns (r: Construction)
      ensures r.Rejected? <==> ValidateConfig(config).Fail?
      ensures r.Rejected? ==> r.error == ValidateConfig(config).error
      ensures r.Built? ==> fresh(r.chart) && r.chart.config == config
    {
      var outcome := ValidateConfig(config);
      if outcome.Fail? {
        return Rejected(outcome.error);
      }
      var chart := new GanttChartGenerator(config);
      return Built(chart);
    }

    /**
     * Clear the container, then append the title and the grid. A null
     * container is only reported. The new children do not depend on what the
     * container held before.
     */
    method Render(container: Element?) returns (status: RenderStatus)
      modifies container
      ensures container == null ==> status == ContainerMissing
      ensures container != null ==>
        && status == (if GridRows(config).threw then Threw else Rendered)
        && container.Snapshot() == RenderInto(old(container.Snapshot()), config)
        && container.Snapshot().children == RenderedChildren(config)
    {
      if container == null {
        return ContainerMissing;
      }
      container.Clear();
      var titleEl := CreateTitle();
      container.AppendChild(titleEl.Snapshot());
      var gridEl, threw := CreateGrid();
      if threw {
        return Threw;
      }
      container.AppendChild(gridEl.Snapshot());
      return Rendered;
    }

    method CreateTitle() returns (titleEl: Element)
      ensures fresh(titleEl)
      ensures titleEl.Snapshot() == TitleNode(config)
    {
      titleEl := new Element(Div);
      titleEl.className := GanttTitle;
      titleEl.SetTextContent(Prop(config, "title"));
    }

    /**
     * The grid element with its column template, the header row and the rows
     * of every swimlane. `threw` reports a TypeError from a null swimlane or
     * task, after which no further rows are added.
     */
    method CreateGrid() returns (gridEl: Element, threw: bool)
      ensures fresh(gridEl)
      ensures threw == GridRows(config).threw
      ensures gridEl.Snapshot() == GridShell(config).Append(GridRows(config).nodes)
    {
      gridEl := CreateGridShell();
      AddHeaderRow(gridEl);
      ghost var shell := gridEl.Snapshot();
      threw := AddSwimlanes(gridEl, Lanes(config));
      ghost var header, lanes := HeaderRow(config), LanesRows(config, Lanes(config));
      assert GridRows(config) == Then(Emitted(header, false), lanes);
      AppendAppend(shell, header, lanes.nodes);
    }

    /** The empty grid: one label column, then one column per week. */
    method CreateGridShell() returns (gridEl: Element)
      ensures fresh(gridEl)
      ensures gridEl.Snapshot() == GridShell(config)
    {
      gridEl := new Element(Div);
      gridEl.className := GanttGrid;
      var columns := "minmax(220px, 1.5fr) repeat(" + ToText(Prop(config, "weeks")) + ", 1fr)";
      gridEl.SetStyle(GridTemplateColumns, Str(columns));
    }

    /** `swimlanes.forEach(swimlane => addSwimlane(gridEl, swimlane))`, stopped by a throw. */
    method AddSwimlanes(gridEl: Element, lanes: seq<Value>) returns (threw: bool)
      modifies gridEl
      ensures threw == LanesRows(config, lanes).threw
      ensures gridEl.Snapshot() == old(gridEl.Snapshot()).Append(LanesRows(config, lanes).nodes)
    {
      ghost var start := gridEl.Snapshot();
      var k := 0;
      threw := false;
      assert start.Append(LanesRows(config, lanes[..0]).nodes) == start;
      while k < |lanes|
        invariant 0 <= k <= |lanes|
        invariant !LanesRows(config, lanes[..k]).threw
        invariant gridEl.Snapshot() == start.Append(LanesRows(config, lanes[..k]).nodes)
      {
        threw := AddSwimlane(gridEl, lanes[k]);
        AppendAppend(start, LanesRows(config, lanes[..k]).nodes, LaneRows(config, lanes[k]).nodes);
        ForEachSnoc(lanes, LaneStep(config), k);
        if threw {
          ForEachStopAtThrow(lanes, LaneStep(config), k + 1);
          return;
        }
        k := k + 1;
      }
      assert lanes[..k] == lanes;
    }

    /** The empty corner cell, then the header of each week 1..weeks. */
    method AddHeaderRow(gridEl: Element)
      modifies gridEl
      ensures gridEl.Snapshot() == old(gridEl.Snapshot()).Append(HeaderRow(config))
    {
      ghost var start := gridEl.Snapshot();
      var headerLabel := new Element(Div);
      headerLabel.className := HeaderCorner;
      gridEl.AppendChild(headerLabel.Snapshot());
      ghost var afterCorner := gridEl.Snapshot();

      var weekLabel := Or(Prop(config, "weekLabel"), Str("W"));
      var weeks := Prop(config, "weeks");
      var i := 1;
      while AtMost(i, weeks)
        invariant 1 <= i <= WeekCount(config) + 1
        invariant gridEl.Snapshot() == afterCorner.Append(WeekHeaders(weekLabel, i - 1))
        decreases WeekCount(config) + 1 - i
      {
        ColumnCountBound(weeks, i);
        var headerCell := CreateDiv(Header, Str(ToText(weekLabel) + ToText(Num(i))));
        gridEl.AppendChild(headerCell.Snapshot());
        AppendAppend(afterCorner, WeekHeaders(weekLabel, i - 1), [WeekHeaderCell(weekLabel, i)]);
        i := i + 1;
      }
      ColumnCountBound(weeks, i);
      AppendAppend(start, [HeaderLabelCell()], WeekHeaders(weekLabel, i - 1));
    }

    /** The swimlane's header pair, then the rows of its tasks if it has a task array. */
    method AddSwimlane(gridEl: Element, swimlane: Value) returns (threw: bool)
      modifies gridEl
      ensures threw == LaneRows(config, swimlane).threw
      ensures gridEl.Snapshot() == old(gridEl.Snapshot()).Append(LaneRows(config, swimlane).nodes)
    {
      if Nullish(swimlane) {
        return true;
      }
      ghost var start := gridEl.Snapshot();
      AddSwimlaneHeader(gridEl, Prop(swimlane, "name"));
      ghost var header := [SwimlaneLabel(Prop(swimlane, "name")), SwimlaneArea(config)];
      var tasks := Prop(swimlane, "tasks");
      if Truthy(tasks) && tasks.Arr? {
        threw := AddTasks(gridEl, tasks.items);
      } else {
        threw := false;
        ConcatNone(header);
      }
      AppendAppend(start, header, TasksRows(config, LaneTasks(swimlane)).nodes);
    }

    /** `swimlane.tasks.forEach(task => addTask(gridEl, task))`, stopped by a throw. */
    method AddTasks(gridEl: Element, tasks: seq<Value>) returns (threw: bool)
      modifies gridEl
      ensures threw == TasksRows(config, tasks).threw
      ensures gridEl.Snapshot() == old(gridEl.Snapshot()).Append(TasksRows(config, tasks).nodes)
    {
      ghost var start := gridEl.Snapshot();
      var k := 0;
      threw := false;
      assert start.Append(TasksRows(config, tasks[..0]).nodes) == start;
      while k < |tasks|
        invariant 0 <= k <= |tasks|
        invariant !TasksRows(config, tasks[..k]).threw
        invariant gridEl.Snapshot() == start.Append(TasksRows(config, tasks[..k]).nodes)
      {
        threw := AddTask(gridEl, tasks[k]);
        AppendAppend(start, TasksRows(config, tasks[..k]).nodes, TaskRows(config, tasks[k]).nodes);
        ForEachSnoc(tasks, TaskStep(config), k);
        if threw {
          ForEachStopAtThrow(tasks, TaskStep(config), k + 1);
          return;
        }
        k := k + 1;
      }
      assert tasks[..k] == tasks;
    }

    /** The swimlane's label and a bar area holding only the column markers. */
    method AddSwimlaneHeader(gridEl: Element, name: Value)
      modifies gridEl
      ensures gridEl.Snapshot() == old(gridEl.Snapshot()).Append([SwimlaneLabel(name), SwimlaneArea(config)])
    {
      ghost var start := gridEl.Snapshot();
      var labelEl := CreateDiv(SwimlaneRowLabel, name);
      gridEl.AppendChild(labelEl.Snapshot());
      var barAreaEl := CreateBarArea(SwimlaneBarArea);
      gridEl.AppendChild(barAreaEl.Snapshot());
      AppendPair(start, SwimlaneLabel(name), SwimlaneArea(config));
    }

    /** The task's label and its bar area: the column markers, then the bar if the task has one. */
    method AddTask(gridEl: Element, task: Value) returns (threw: bool)
      modifies gridEl
      ensures threw == TaskRows(config, task).threw
      ensures gridEl.Snapshot() == old(gridEl.Snapshot()).Append(TaskRows(config, task).nodes)
    {
      if Nullish(task) {
        return true;
      }
      ghost var start := gridEl.Snapshot();
      var labelEl := CreateDiv(TaskRowLabel, Prop(task, "name"));
      gridEl.AppendChild(labelEl.Snapshot());
      var barAreaEl := CreateBarArea(TaskBarArea);
      if Truthy(Prop(task, "start")) && Truthy(Prop(task, "end")) {
        var barEl := CreateBar(task);
        barAreaEl.AppendChild(barEl.Snapshot());
      } else {
        ConcatNone(Markers(WeekCount(config)));
      }
      gridEl.AppendChild(barAreaEl.Snapshot());
      AppendPair(start, TaskLabel(Prop(task, "name")), TaskArea(config, task));
      return false;
    }

    /** A bar area of the given class holding the column markers. */
    method CreateBarArea(className: ClassName) returns (barAreaEl: Element)
      ensures fresh(barAreaEl)
      ensures barAreaEl.Snapshot() == Node(Div, className, "", map[], map[], Markers(WeekCount(config)))
    {
      barAreaEl := new Element(Div);
      barAreaEl.className := className;
      AddMarkers(barAreaEl);
      ConcatNone(Markers(WeekCount(config)));
    }

    /** The marker loop shared by swimlane and task rows: a span per column 1..weeks. */
    method AddMarkers(barAreaEl: Element)
      modifies barAreaEl
      ensures barAreaEl.Snapshot() == old(barAreaEl.Snapshot()).Append(Markers(WeekCount(config)))
    {
      ghost var start := barAreaEl.Snapshot();
      var weeks := Prop(config, "weeks");
      var i := 1;
      while AtMost(i, weeks)
        invariant 1 <= i <= WeekCount(config) + 1
        invariant barAreaEl.Snapshot() == start.Append(Markers(i - 1))
        decreases WeekCount(config) + 1 - i
      {
        ColumnCountBound(weeks, i);
        var cell := CreateMarker(i);
        barAreaEl.AppendChild(cell.Snapshot());
        AppendMarker(start, i);
        i := i + 1;
      }
      ColumnCountBound(weeks, i);
    }

    /** The bar: colour tag and fill, column span, and optionally the task's name. */
    method CreateBar(task: Value) returns (barEl: Element)
      ensures fresh(barEl)
      ensures barEl.Snapshot() == BarNode(config, task)
    {
      barEl := new Element(Div);
      barEl.className := GanttBar;
      var color := Prop(task, "color");
      if Truthy(color) {
        barEl.SetAttribute(DataColor, color);
        var colors := Prop(config, "colors");
        if Truthy(colors) && Truthy(Prop(colors, ToText(color))) {
          barEl.SetStyle(BackgroundColor, Prop(colors, ToText(color)));
        }
      }
      barEl.SetStyle(GridColumn, Str(ToText(Prop(task, "start")) + " / " + ToText(Prop(task, "end"))));
      if Truthy(Prop(task, "showLabel")) {
        barEl.SetTextContent(Prop(task, "name"));
      }
    }
  }
}
