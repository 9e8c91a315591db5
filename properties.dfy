/**
 * What the generated chart looks like, proved about the layout functions
 * (and so, through the methods' postconditions, about what `render` builds).
 */
module Properties {
  import opened JsValue
  import opened Dom
  import opened Config
  import opened Layout
  import opened Steps

  // ---------------------------------------------------------------- validation

  /**
   * For a configuration whose fields have the intended types, validation
   * accepts exactly a non-empty title with at least one week, and otherwise
   * names the first guard that failed.
   */
  lemma TypedValidation(config: Value, title: string, weeks: int, lanes: seq<Value>)
    requires config.Obj?
    requires Prop(config, "title") == Str(title)
    requires Prop(config, "weeks") == Num(weeks)
    requires Prop(config, "swimlanes") == Arr(lanes)
    ensures ValidateConfig(config).Pass? <==> title != "" && weeks >= 1
    ensures title == "" ==> ValidateConfig(config) == Fail(MissingTitle)
    ensures title != "" && weeks < 1 ==> ValidateConfig(config) == Fail(BadWeeks)
  {
  }

  /** A missing or non-array `swimlanes` is rejected once title and weeks are fine. */
  lemma SwimlanesMustBeArray(config: Value)
    requires !Nullish(config) && Truthy(Prop(config, "title"))
    requires Truthy(Prop(config, "weeks")) && !BelowOne(Prop(config, "weeks"))
    ensures ValidateConfig(config).Pass? <==> Prop(config, "swimlanes").Arr?
    ensures !Prop(config, "swimlanes").Arr? ==> ValidateConfig(config) == Fail(MissingSwimlanes)
  {
  }

  /**
   * What an accepted configuration guarantees to the renderer: a truthy
   * title, the swimlane array, and a week count of at least one unless
   * `weeks` does not convert to a number at all.
   */
  lemma AcceptedConfig(config: Value)
    requires ValidateConfig(config).Pass?
    ensures !Nullish(config) && Truthy(Prop(config, "title"))
    ensures Prop(config, "swimlanes") == Arr(Lanes(config))
    ensures ToNumber(Prop(config, "weeks")).Int? ==> WeekCount(config) == ToNumber(Prop(config, "weeks")).i >= 1
  {
  }

  /**
   * The guard `!weeks || weeks < 1` lets through a `weeks` that converts to
   * NaN; such a chart renders no week columns at all.
   */
  lemma NonNumericWeeksAccepted()
    ensures var config := Obj(map["title" := Str("Plan"), "weeks" := Str("eight"), "swimlanes" := Arr([])]);
      && ValidateConfig(config).Pass?
      && WeekCount(config) == 0
      && HeaderRow(config) == [HeaderLabelCell()]
  {
    var config := Obj(map["title" := Str("Plan"), "weeks" := Str("eight"), "swimlanes" := Arr([])]);
    NonDigitIsNaN("eight", 4);
    assert ToNumber(Prop(config, "weeks")) == NaN;
  }

  /** A missing or falsy title is rejected first, whatever the other fields hold. */
  lemma MissingTitleRejected(config: Value)
    requires !Nullish(config) && !Truthy(Prop(config, "title"))
    ensures ValidateConfig(config) == Fail(MissingTitle)
  {
  }

  /** A missing `weeks` is rejected once the title is fine. */
  lemma MissingWeeksRejected(config: Value)
    requires config.Obj? && Truthy(Prop(config, "title")) && "weeks" !in config.fields
    ensures ValidateConfig(config) == Fail(BadWeeks)
  {
  }

  /** An empty title, zero weeks and a missing `swimlanes` are each rejected with their own error. */
  lemma RejectedExamples()
    ensures ValidateConfig(Obj(map["title" := Str(""), "weeks" := Num(4), "swimlanes" := Arr([])])) == Fail(MissingTitle)
    ensures ValidateConfig(Obj(map["title" := Str("Plan"), "weeks" := Num(0), "swimlanes" := Arr([])])) == Fail(BadWeeks)
    ensures ValidateConfig(Obj(map["title" := Str("Plan"), "weeks" := Num(4)])) == Fail(MissingSwimlanes)
    ensures ValidateConfig(Null) == Fail(NotAnObject)
  {
    var missing := Obj(map["title" := Str("Plan"), "weeks" := Num(4)]);
    assert "swimlanes" !in missing.fields;
  }

  // ---------------------------------------------------------------- title and header row

  /** The title element carries the configured title as its only text. */
  lemma TitleText(config: Value, title: string)
    requires Prop(config, "title") == Str(title)
    ensures TitleNode(config).text == title && TitleNode(config).children == []
    ensures RenderedChildren(config)[0] == TitleNode(config)
  {
  }

  lemma {:induction false} WeekHeadersAt(prefix: Value, k: nat)
    ensures |WeekHeaders(prefix, k)| == k
    ensures forall i :: 1 <= i <= k ==> WeekHeaders(prefix, k)[i - 1] == WeekHeaderCell(prefix, i)
    decreases k
  {
    if k > 0 {
      WeekHeadersAt(prefix, k - 1);
    }
  }

  /**
   * The header row is the empty corner cell followed by one cell per week,
   * cell i reading `weekLabel` followed by i, for i = 1..weeks in order.
   */
  lemma HeaderRowShape(config: Value)
    ensures |HeaderRow(config)| == 1 + WeekCount(config)
    ensures HeaderRow(config)[0] == HeaderLabelCell() && HeaderRow(config)[0].text == ""
    ensures forall i :: 1 <= i <= WeekCount(config) ==>
      HeaderRow(config)[i].className == Header &&
      HeaderRow(config)[i].text == ToText(WeekLabel(config)) + NumberText(i)
  {
    var prefix := WeekLabel(config);
    var n := WeekCount(config);
    WeekHeadersAt(prefix, n);
    forall i | 1 <= i <= n
      ensures HeaderRow(config)[i] == WeekHeaderCell(prefix, i)
    {
      assert HeaderRow(config)[i] == WeekHeaders(prefix, n)[i - 1];
    }
  }

  /** Three weeks and no `weekLabel`: the header row reads "", "W1", "W2", "W3". */
  lemma HeaderRowDefaultLabel()
    ensures var config := Obj(map["title" := Str("Plan"), "weeks" := Num(3), "swimlanes" := Arr([])]);
      HeaderRow(config) == [DivNode(HeaderCorner, ""), DivNode(Header, "W1"), DivNode(Header, "W2"), DivNode(Header, "W3")]
  {
    var config := Obj(map["title" := Str("Plan"), "weeks" := Num(3), "swimlanes" := Arr([])]);
    var w := WeekLabel(config);
    assert WeekCount(config) == 3 && w == Str("W");
    assert WeekHeaderCell(w, 1) == DivNode(Header, "W1") by { assert "W" + Decimal(1) == "W1"; }
    assert WeekHeaderCell(w, 2) == DivNode(Header, "W2") by { assert "W" + Decimal(2) == "W2"; }
    assert WeekHeaderCell(w, 3) == DivNode(Header, "W3") by { assert "W" + Decimal(3) == "W3"; }
    assert WeekHeaders(w, 1) == [WeekHeaderCell(w, 1)];
    assert WeekHeaders(w, 2) == [WeekHeaderCell(w, 1), WeekHeaderCell(w, 2)];
    assert WeekHeaders(w, 3) == [WeekHeaderCell(w, 1), WeekHeaderCell(w, 2), WeekHeaderCell(w, 3)];
  }

  /** The header row has a cell per week besides the corner. */
  lemma HeaderRowLength(config: Value)
    ensures |HeaderRow(config)| == 1 + WeekCount(config)
  {
    WeekHeadersAt(WeekLabel(config), WeekCount(config));
  }

  /** `weekLabel` falls back to "W" when it is unset or empty, and is used as given otherwise. */
  lemma WeekLabelDefault(config: Value)
    ensures !Truthy(Prop(config, "weekLabel")) ==> ToText(WeekLabel(config)) == "W"
    ensures Truthy(Prop(config, "weekLabel")) ==> WeekLabel(config) == Prop(config, "weekLabel")
    ensures Prop(config, "weekLabel").Str? && Prop(config, "weekLabel") != Str("") ==>
      ToText(WeekLabel(config)) == Prop(config, "weekLabel").s
  {
  }

  // ---------------------------------------------------------------- bar areas

  /** The number of bars (elements of class `gantt-bar`) among some elements. */
  function CountBars(nodes: seq<Node>): nat
    decreases |nodes|
  {
    if nodes == [] then 0
    else CountBars(nodes[..|nodes| - 1]) + (if nodes[|nodes| - 1].className == GanttBar then 1 else 0)
  }

  lemma {:induction false} CountBarsConcat(a: seq<Node>, b: seq<Node>)
    ensures CountBars(a + b) == CountBars(a) + CountBars(b)
    decreases |b|
  {
    if b != [] {
      var c := b[..|b| - 1];
      assert (a + b)[..|a + b| - 1] == a + c;
      CountBarsConcat(a, c);
    } else {
      assert a + b == a;
    }
  }

  lemma {:induction false} MarkersAt(k: nat)
    ensures |Markers(k)| == k
    ensures forall i :: 1 <= i <= k ==> Markers(k)[i - 1] == Marker(i)
    decreases k
  {
    if k > 0 {
      MarkersAt(k - 1);
      var prev := Markers(k - 1);
      assert Markers(k) == prev + [Marker(k)];
      forall i | 1 <= i < k
        ensures Markers(k)[i - 1] == Marker(i)
      {
        assert Markers(k)[i - 1] == prev[i - 1];
      }
    }
  }

  /** No marker is a bar. */
  lemma {:induction false} MarkersNoBars(k: nat)
    ensures CountBars(Markers(k)) == 0
    decreases k
  {
    if k > 0 {
      MarkersNoBars(k - 1);
      var all := Markers(k);
      assert all[..|all| - 1] == Markers(k - 1);
      assert all[|all| - 1] == Marker(k);
    }
  }

  /**
   * The markers of columns 1..k, in order: marker i is a bare span whose
   * `data-col` reads back as the number i.
   */
  lemma MarkerColumns(k: nat, i: nat)
    requires 1 <= i <= k
    ensures |Markers(k)| == k
    ensures Markers(k)[i - 1].tag == Span && Markers(k)[i - 1].children == []
    ensures Markers(k)[i - 1].attrs.Keys == {DataCol}
    ensures ToNumber(Str(Markers(k)[i - 1].attrs[DataCol])) == Int(i)
  {
    MarkersAt(k);
    NumberTextRoundTrip(i);
  }

  /**
   * A swimlane's bar area holds exactly the markers of the weeks, and never
   * a bar.
   */
  lemma SwimlaneAreaShape(config: Value)
    ensures SwimlaneArea(config).className == SwimlaneBarArea
    ensures SwimlaneArea(config).children == Markers(WeekCount(config))
    ensures |SwimlaneArea(config).children| == WeekCount(config)
    ensures CountBars(SwimlaneArea(config).children) == 0
  {
    MarkersAt(WeekCount(config));
    MarkersNoBars(WeekCount(config));
  }

  /**
   * A task's bar area holds the same markers, followed by exactly one bar if
   * `task.start` and `task.end` are both truthy and by none otherwise.
   */
  lemma TaskAreaShape(config: Value, task: Value)
    ensures |TaskArea(config, task).children| == WeekCount(config) + (if HasBar(task) then 1 else 0)
    ensures TaskArea(config, task).children[..WeekCount(config)] == Markers(WeekCount(config))
    ensures HasBar(task) ==> TaskArea(config, task).children[WeekCount(config)] == BarNode(config, task)
    ensures CountBars(TaskArea(config, task).children) == (if HasBar(task) then 1 else 0)
  {
    var n := WeekCount(config);
    MarkersAt(n);
    MarkersNoBars(n);
    var bar := if HasBar(task) then [BarNode(config, task)] else [];
    assert TaskArea(config, task).children == Markers(n) + bar;
    CountBarsConcat(Markers(n), bar);
    if HasBar(task) {
      assert CountBars(bar) == 1 by { assert bar[..0] == []; }
    }
  }

  /** A start or end of 0 is falsy: the row keeps its markers but gets no bar. */
  lemma ZeroSuppressesBar(config: Value, task: Value)
    requires Prop(task, "start") == Num(0) || Prop(task, "end") == Num(0)
    ensures TaskArea(config, task).children == Markers(WeekCount(config))
  {
    ConcatNone(Markers(WeekCount(config)));
  }

  // ---------------------------------------------------------------- bars

  /**
   * The bar's colour tag, fill, column span and text. The span is the
   * configured start and end as written, with no clamping to the week count.
   */
  lemma BarRules(config: Value, task: Value)
    ensures BarNode(config, task).className == GanttBar && BarNode(config, task).children == []
    ensures DataColor in BarNode(config, task).attrs <==> Truthy(Prop(task, "color"))
    ensures Truthy(Prop(task, "color")) ==> BarNode(config, task).attrs[DataColor] == ToText(Prop(task, "color"))
    ensures BackgroundColor in BarNode(config, task).style <==> HasFill(config, task)
    ensures HasFill(config, task) ==> BarNode(config, task).style[BackgroundColor] == ToText(PaletteEntry(config, task))
    ensures BarNode(config, task).style[GridColumn] == ColumnSpan(task)
    ensures Truthy(Prop(task, "showLabel")) ==> BarNode(config, task).text == TextContent(Prop(task, "name"))
    ensures !Truthy(Prop(task, "showLabel")) ==> BarNode(config, task).text == ""
  {
  }

  /**
   * For numeric positions the task's bar area ends in its bar, whose span
   * reads `start / end` whatever the week count.
   */
  lemma BarSpanUnclamped(config: Value, task: Value, start: int, end: int)
    requires Prop(task, "start") == Num(start) && Prop(task, "end") == Num(end)
    requires start != 0 && end != 0
    ensures TaskArea(config, task).children == Markers(WeekCount(config)) + [BarNode(config, task)]
    ensures BarNode(config, task).style[GridColumn] == NumberText(start) + " / " + NumberText(end)
  {
  }

  /** Task T1 of the example chart: weeks 1 to 3, coloured blue. */
  function ExampleTask(): Value {
    Obj(map["name" := Str("T1"), "start" := Num(1), "end" := Num(3), "color" := Str("blue")])
  }

  /** The example chart: "Plan" over 4 weeks, swimlane "A" holding T1, palette `{blue: "#00f"}`. */
  function ExampleConfig(): Value {
    var lane := Obj(map["name" := Str("A"), "tasks" := Arr([ExampleTask()])]);
    Obj(map["title" := Str("Plan"), "weeks" := Num(4), "swimlanes" := Arr([lane]),
            "colors" := Obj(map["blue" := Str("#00f")])])
  }

  /**
   * The example chart passes validation, and the grid's ninth child (after
   * the corner, four week headers, the swimlane's pair and the task's label)
   * is T1's bar area: four markers, then a bar tagged blue, filled #00f and
   * spanning "1 / 3".
   */
  lemma PaletteExample()
    ensures ValidateConfig(ExampleConfig()).Pass?
    ensures !GridRows(ExampleConfig()).threw && |GridRows(ExampleConfig()).nodes| == 9
    ensures GridRows(ExampleConfig()).nodes[8] == TaskArea(ExampleConfig(), ExampleTask())
    ensures TaskArea(ExampleConfig(), ExampleTask()).children
         == Markers(4) + [Node(Div, GanttBar, "", map[DataColor := "blue"],
                               map[BackgroundColor := "#00f", GridColumn := "1 / 3"], [])]
  {
    var config, task := ExampleConfig(), ExampleTask();
    var lane := Obj(map["name" := Str("A"), "tasks" := Arr([task])]);
    assert Prop(config, "title") == Str("Plan");
    assert Prop(config, "weeks") == Num(4);
    assert Prop(config, "swimlanes") == Arr([lane]);
    assert Prop(lane, "tasks") == Arr([task]);
    assert Prop(task, "start") == Num(1) && Prop(task, "end") == Num(3);
    TypedValidation(config, "Plan", 4, [lane]);
    SingleTaskRows(config, lane, task);
    ExampleBar(config, task);
    BarSpanUnclamped(config, task, 1, 3);
  }

  /** With four weeks and one swimlane holding one task, the task's bar area is the grid's ninth child. */
  lemma SingleTaskRows(config: Value, lane: Value, task: Value)
    requires Prop(config, "weeks") == Num(4) && Prop(config, "swimlanes") == Arr([lane])
    requires lane.Obj? && Prop(lane, "tasks") == Arr([task]) && !Nullish(task)
    ensures WeekCount(config) == 4
    ensures !GridRows(config).threw && |GridRows(config).nodes| == 9
    ensures GridRows(config).nodes[8] == TaskArea(config, task)
  {
    assert Lanes(config) == [lane];
    assert LaneTasks(lane) == [task];
    assert TasksWellFormed(LaneTasks(lane));
    assert WellFormedLanes([lane]);
    GridShape(config);
    assert TaskTotal([lane]) == 1 by { assert [lane][..0] == []; }
    LanesRowsAt(config, [lane], 0);
    assert LaneOffset([lane], 0) == 0 by { assert [lane][..0] == []; }
    LaneRowsLayout(config, lane);
  }

  /** T1's bar in the example chart. */
  lemma ExampleBar(config: Value, task: Value)
    requires config == ExampleConfig() && task == ExampleTask()
    ensures BarNode(config, task) == Node(Div, GanttBar, "", map[DataColor := "blue"],
                                          map[BackgroundColor := "#00f", GridColumn := "1 / 3"], [])
  {
    assert Prop(task, "color") == Str("blue") && !Truthy(Prop(task, "showLabel"));
    assert PaletteEntry(config, task) == Str("#00f");
    assert ColumnSpan(task) == "1 / 3" by {
      assert Prop(task, "start") == Num(1) && Prop(task, "end") == Num(3);
      assert NumberText(1) == "1" && NumberText(3) == "3";
    }
  }

  /** A colour key with no palette entry is still recorded, with no fill. */
  lemma UnresolvedColorTagged(config: Value, task: Value, key: string)
    requires Prop(task, "color") == Str(key) && key != ""
    requires !Prop(config, "colors").Obj? || key !in Prop(config, "colors").fields
    ensures BarNode(config, task).attrs[DataColor] == key
    ensures BackgroundColor !in BarNode(config, task).style
  {
  }

  // ---------------------------------------------------------------- rows of the grid

  /** True when no task is null or undefined. */
  predicate TasksWellFormed(tasks: seq<Value>) {
    forall j :: 0 <= j < |tasks| ==> !Nullish(tasks[j])
  }

  /** True when the swimlane, and every task of its task array, is neither null nor undefined. */
  predicate LaneWellFormed(lane: Value) {
    !Nullish(lane) && TasksWellFormed(LaneTasks(lane))
  }

  /** True when no swimlane, and no task of a swimlane, is null or undefined. */
  predicate WellFormedLanes(lanes: seq<Value>) {
    forall j :: 0 <= j < |lanes| ==> LaneWellFormed(lanes[j])
  }

  /** The number of tasks across the swimlanes, counting only task arrays. */
  function TaskTotal(lanes: seq<Value>): nat
    decreases |lanes|
  {
    if lanes == [] then 0 else TaskTotal(lanes[..|lanes| - 1]) + |LaneTasks(lanes[|lanes| - 1])|
  }

  /** The tasks' rows throw exactly when one of the tasks is null or undefined. */
  lemma TasksRowsThrew(config: Value, tasks: seq<Value>)
    ensures TasksRows(config, tasks).threw <==> !TasksWellFormed(tasks)
  {
    ForEachThrew(tasks, TaskStep(config));
  }

  /** Without a throw, each task contributes its label and then its bar area, in order. */
  lemma TasksRowsLayout(config: Value, tasks: seq<Value>)
    requires !TasksRows(config, tasks).threw
    ensures |TasksRows(config, tasks).nodes| == 2 * |tasks|
    ensures forall j :: 0 <= j < |tasks| ==>
      TasksRows(config, tasks).nodes[2 * j] == TaskLabel(Prop(tasks[j], "name")) &&
      TasksRows(config, tasks).nodes[2 * j + 1] == TaskArea(config, tasks[j])
  {
    var step := TaskStep(config);
    TasksRowsThrew(config, tasks);
    forall j | 0 <= j < |tasks|
      ensures |TasksRows(config, tasks).nodes| == 2 * |tasks|
      ensures TasksRows(config, tasks).nodes[2 * j] == TaskLabel(Prop(tasks[j], "name"))
      ensures TasksRows(config, tasks).nodes[2 * j + 1] == TaskArea(config, tasks[j])
    {
      ForEachUniformAt(tasks, step, 2, j);
      assert step(tasks[j]) == TaskRows(config, tasks[j]);
      var all := TasksRows(config, tasks).nodes;
      var rows := TaskRows(config, tasks[j]).nodes;
      assert all[2 * j..2 * j + 2] == rows;
      assert all[2 * j] == rows[0];
      assert all[2 * j + 1] == rows[1];
    }
    if tasks == [] {
      assert TasksRows(config, tasks).nodes == [];
    }
  }

  /** Without a throw, the tasks contribute two rows each. */
  lemma TasksRowsSize(config: Value, tasks: seq<Value>)
    requires !TasksRows(config, tasks).threw
    ensures |TasksRows(config, tasks).nodes| == 2 * |tasks|
  {
    var step := TaskStep(config);
    TasksRowsThrew(config, tasks);
    ForEachSize(tasks, step);
    EmitsUniform(tasks, step, 2);
  }

  /** A swimlane's rows throw exactly when it, or one of its tasks, is null or undefined. */
  lemma LaneRowsThrew(config: Value, lane: Value)
    ensures LaneRows(config, lane).threw <==> !LaneWellFormed(lane)
  {
    TasksRowsThrew(config, LaneTasks(lane));
  }

  /**
   * A swimlane contributes its label and marker-only bar area, then a label
   * and bar area per task in configuration order; a swimlane whose `tasks`
   * is missing or not an array contributes only its own pair.
   */
  lemma LaneRowsLayout(config: Value, lane: Value)
    requires !LaneRows(config, lane).threw
    ensures
      var rows := LaneRows(config, lane).nodes;
      var tasks := LaneTasks(lane);
      && |rows| == 2 + 2 * |tasks|
      && rows[0] == SwimlaneLabel(Prop(lane, "name"))
      && rows[1] == SwimlaneArea(config)
      && forall j :: 0 <= j < |tasks| ==>
           rows[2 + 2 * j] == TaskLabel(Prop(tasks[j], "name")) &&
           rows[3 + 2 * j] == TaskArea(config, tasks[j])
    ensures !Prop(lane, "tasks").Arr? ==>
      LaneRows(config, lane).nodes == [SwimlaneLabel(Prop(lane, "name")), SwimlaneArea(config)]
  {
    var tasks := LaneTasks(lane);
    var header := [SwimlaneLabel(Prop(lane, "name")), SwimlaneArea(config)];
    var below := TasksRows(config, tasks).nodes;
    var rows := LaneRows(config, lane).nodes;
    assert rows == header + below;
    TasksRowsLayout(config, tasks);
    forall j | 0 <= j < |tasks|
      ensures rows[2 + 2 * j] == TaskLabel(Prop(tasks[j], "name"))
      ensures rows[3 + 2 * j] == TaskArea(config, tasks[j])
    {
      assert rows[2 + 2 * j] == below[2 * j];
      assert rows[3 + 2 * j] == below[2 * j + 1];
    }
    if !Prop(lane, "tasks").Arr? {
      ConcatNone(header);
    }
  }

  /** Without a throw, a swimlane contributes two rows plus two per task. */
  lemma LaneRowsSize(config: Value, lane: Value)
    requires !LaneRows(config, lane).threw
    ensures |LaneRows(config, lane).nodes| == 2 + 2 * |LaneTasks(lane)|
  {
    TasksRowsSize(config, LaneTasks(lane));
  }

  /** Without a throw, the swimlanes contribute two rows each plus two per task. */
  lemma {:induction false} LanesEmit(config: Value, lanes: seq<Value>)
    requires WellFormedLanes(lanes)
    ensures Emits(lanes, LaneStep(config)) == 2 * |lanes| + 2 * TaskTotal(lanes)
    decreases |lanes|
  {
    if lanes != [] {
      var m := |lanes| - 1;
      var step, last := LaneStep(config), lanes[m];
      assert forall i :: 0 <= i < m ==> lanes[..m][i] == lanes[i];
      LanesEmit(config, lanes[..m]);
      LaneRowsThrew(config, last);
      LaneRowsSize(config, last);
      assert |step(last).nodes| == 2 + 2 * |LaneTasks(last)|;
      assert Emits(lanes, step) == Emits(lanes[..m], step) + |step(last).nodes|;
      assert TaskTotal(lanes) == TaskTotal(lanes[..m]) + |LaneTasks(last)|;
    }
  }

  /** Where swimlane j's rows start: after two rows for each earlier swimlane and each earlier task. */
  function LaneOffset(lanes: seq<Value>, j: nat): nat
    requires j <= |lanes|
  {
    2 * j + 2 * TaskTotal(lanes[..j])
  }

  /** The swimlanes' rows throw exactly when a swimlane, or a task of one, is null or undefined. */
  lemma LanesRowsThrew(config: Value, lanes: seq<Value>)
    ensures LanesRows(config, lanes).threw <==> !WellFormedLanes(lanes)
  {
    ForEachThrew(lanes, LaneStep(config));
    forall j | 0 <= j < |lanes|
      ensures LaneRows(config, lanes[j]).threw <==> !LaneWellFormed(lanes[j])
    {
      LaneRowsThrew(config, lanes[j]);
    }
  }

  /** Without a throw, every swimlane contributes two rows plus two per task. */
  lemma LanesRowsSize(config: Value, lanes: seq<Value>)
    requires !LanesRows(config, lanes).threw
    ensures |LanesRows(config, lanes).nodes| == 2 * |lanes| + 2 * TaskTotal(lanes)
  {
    LanesRowsThrew(config, lanes);
    ForEachSize(lanes, LaneStep(config));
    LanesEmit(config, lanes);
  }

  /**
   * Without a throw, swimlane j's rows sit, unchanged and contiguous, at
   * `LaneOffset(lanes, j)`: the swimlanes keep their configuration order.
   */
  lemma LanesRowsAt(config: Value, lanes: seq<Value>, j: nat)
    requires !LanesRows(config, lanes).threw && j < |lanes|
    ensures LaneOffset(lanes, j) + |LaneRows(config, lanes[j]).nodes| <= |LanesRows(config, lanes).nodes|
    ensures LanesRows(config, lanes).nodes[LaneOffset(lanes, j)..LaneOffset(lanes, j) + |LaneRows(config, lanes[j]).nodes|]
         == LaneRows(config, lanes[j]).nodes
  {
    ForEachAt(lanes, LaneStep(config), j);
    LaneOffsetEmits(config, lanes, j);
  }

  /** Without a throw, the swimlanes before j emit `LaneOffset(lanes, j)` rows. */
  lemma LaneOffsetEmits(config: Value, lanes: seq<Value>, j: nat)
    requires !LanesRows(config, lanes).threw && j <= |lanes|
    ensures Emits(lanes[..j], LaneStep(config)) == LaneOffset(lanes, j)
  {
    LanesRowsThrew(config, lanes);
    assert forall i :: 0 <= i < j ==> lanes[..j][i] == lanes[i];
    LanesEmit(config, lanes[..j]);
  }

  /**
   * The grid holds the header row, then two rows per swimlane and two per
   * task: 1 + weeks + 2·|swimlanes| + 2·Σ|tasks| children. It throws, and
   * the chart is left without a grid, exactly when a swimlane or a task is
   * null or undefined.
   */
  lemma GridShape(config: Value)
    ensures GridRows(config).threw <==> !WellFormedLanes(Lanes(config))
    ensures !GridRows(config).threw ==>
      && |GridRows(config).nodes| == 1 + WeekCount(config) + 2 * |Lanes(config)| + 2 * TaskTotal(Lanes(config))
      && GridRows(config).nodes == HeaderRow(config) + LanesRows(config, Lanes(config)).nodes
      && GridRows(config).nodes[..1 + WeekCount(config)] == HeaderRow(config)
  {
    LanesRowsThrew(config, Lanes(config));
    if !GridRows(config).threw {
      LanesRowsSize(config, Lanes(config));
      HeaderRowLength(config);
    }
  }

  /**
   * After a successful render the container holds exactly the title and the
   * grid, whatever it held before, so rendering twice gives the same children.
   */
  lemma RenderedShape(config: Value)
    requires WellFormedLanes(Lanes(config))
    ensures RenderedChildren(config) == [TitleNode(config), GridNode(config)]
    ensures GridNode(config).className == GanttGrid
    ensures |GridNode(config).children| == 1 + WeekCount(config) + 2 * |Lanes(config)| + 2 * TaskTotal(Lanes(config))
  {
    GridShape(config);
  }
}
