/**
 * An abstract document tree in place of the browser DOM. A finished element
 * is a `Node` value; the element the generator is still filling in is an
 * `Element` object whose fields its methods update. Every element the
 * generator builds is complete before it is appended to its parent, so
 * appending a snapshot of it is the same as appending the object.
 */
module Dom {
  import opened JsValue

  /** The two tag names the generator creates. */
  datatype Tag = Div | Span {
    function Name(): string {
      match this
      case Div => "div"
      case Span => "span"
    }
  }

  /**
   * The `className` values the generator assigns (NoClass: never assigned).
   * Each stands for its exact class string, which the stylesheet keys on.
   */
  datatype ClassName =
    | NoClass
    | GanttTitle
    | GanttGrid
    | HeaderCorner
    | Header
    | SwimlaneRowLabel
    | SwimlaneBarArea
    | TaskRowLabel
    | TaskBarArea
    | GanttBar
  {
    function Name(): string {
      match this
      case NoClass => ""
      case GanttTitle => "gantt-title"
      case GanttGrid => "gantt-grid"
      case HeaderCorner => "gantt-header gantt-header-label"
      case Header => "gantt-header"
      case SwimlaneRowLabel => "gantt-row-label swimlane"
      case SwimlaneBarArea => "gantt-bar-area swimlane"
      case TaskRowLabel => "gantt-row-label task"
      case TaskBarArea => "gantt-bar-area task"
      case GanttBar => "gantt-bar"
    }
  }

  /** The attributes the generator sets. */
  datatype AttrName = DataCol | DataColor {
    function Name(): string {
      match this
      case DataCol => "data-col"
      case DataColor => "data-color"
    }
  }

  /** The inline style properties the generator sets. */
  datatype StyleName = GridTemplateColumns | BackgroundColor | GridColumn {
    function Name(): string {
      match this
      case GridTemplateColumns => "gridTemplateColumns"
      case BackgroundColor => "backgroundColor"
      case GridColumn => "gridColumn"
    }
  }

  /**
   * An element: tag name, `className`, text content, attributes set with
   * `setAttribute`, inline style properties and child elements.
   */
  datatype Node = Node(
    tag: Tag,
    className: ClassName,
    text: string,
    attrs: map<AttrName, string>,
    style: map<StyleName, string>,
    children: seq<Node>)
  {
    /** The same element with `rows` appended to its children. */
    function Append(rows: seq<Node>): Node {
      this.(children := children + rows)
    }
  }

  /** Appending twice is appending the concatenation (a proof step for `Chart`'s loops). */
  lemma AppendAppend(n: Node, a: seq<Node>, b: seq<Node>)
    ensures n.Append(a).Append(b) == n.Append(a + b)
  {
    assert n.children + a + b == n.children + (a + b);
  }

  /**
   * Appending two children one at a time is appending the pair. A sequence
   * identity the proofs of `Chart` use as a step; it states nothing about the
   * generator.
   */
  lemma AppendPair(n: Node, a: Node, b: Node)
    ensures n.Append([a]).Append([b]) == n.Append([a, b])
  {
    assert n.children + [a] + [b] == n.children + [a, b];
  }

  /**
   * Concatenating no elements on either side changes nothing. A sequence
   * identity the proofs use as a step; it states nothing about the generator.
   */
  lemma ConcatNone(rows: seq<Node>)
    ensures rows + [] == rows && [] + rows == rows
  {
  }

  /** A fresh element as `document.createElement(tag)` returns it. */
  function Blank(tag: Tag): Node {
    Node(tag, NoClass, "", map[], map[], [])
  }

  class Element {
    var tag: Tag
    var className: ClassName
    var text: string
    var attrs: map<AttrName, string>
    var style: map<StyleName, string>
    var children: seq<Node>

    /** `document.createElement(tag)`. */
    constructor (tag: Tag)
      ensures Snapshot() == Blank(tag)
    {
      this.tag := tag;
      className := NoClass;
      text := "";
      attrs := map[];
      style := map[];
      children := [];
    }

    /** The element's current state as a value. */
    function Snapshot(): Node
      reads this
    {
      Node(tag, className, text, attrs, style, children)
    }

    /** `appendChild(child)`. */
    method AppendChild(child: Node)
      modifies this
      ensures Snapshot() == old(Snapshot()).Append([child])
    {
      children := children + [child];
    }

    /** `textContent = v`: replaces all content by the text of v. */
    method SetTextContent(v: Value)
      modifies this
      ensures Snapshot() == old(Snapshot()).(text := TextContent(v), children := [])
    {
      text := TextContent(v);
      children := [];
    }

    /** `innerHTML = ''`: removes all content. */
    method Clear()
      modifies this
      ensures Snapshot() == old(Snapshot()).(text := "", children := [])
    {
      text := "";
      children := [];
    }

    /** `setAttribute(name, v)`: the attribute holds the string form of v. */
    method SetAttribute(name: AttrName, v: Value)
      modifies this
      ensures Snapshot() == old(Snapshot()).(attrs := old(attrs)[name := ToText(v)])
    {
      attrs := attrs[name := ToText(v)];
    }

    /** `style[name] = v` for a non-null v: the property holds the string form of v. */
    method SetStyle(name: StyleName, v: Value)
      modifies this
      ensures Snapshot() == old(Snapshot()).(style := old(style)[name := ToText(v)])
    {
      style := style[name := ToText(v)];
    }
  }
}
