/**
 * JavaScript values as the chart generator sees its configuration: the
 * result of parsing a JSON document, plus `Undefined` for a property that is
 * not there. The generator never checks types; it relies on JavaScript's
 * truthiness, string conversion and numeric comparison, which are modelled
 * here for this value domain.
 */
module JsValue {

  datatype Value =
    | Undefined
    | Null
    | Bool(b: bool)
    | Num(n: int)
    | Str(s: string)
    | Arr(items: seq<Value>)
    | Obj(fields: map<string, Value>)

  /** The result of JavaScript's ToNumber: an integer or NaN. */
  datatype Number = NaN | Int(i: int)

  /** `undefined` and `null`: reading a property of one of these throws a TypeError. */
  predicate Nullish(v: Value) {
    v.Undefined? || v.Null?
  }

  /** JavaScript truthiness: `if (v)`, `!v`, `a && b`. */
  predicate Truthy(v: Value) {
    match v
    case Undefined => false
    case Null => false
    case Bool(b) => b
    case Num(n) => n != 0
    case Str(s) => s != ""
    case Arr(_) => true
    case Obj(_) => true
  }

  /** `a || b`: the first operand if it is truthy, else the second. */
  function Or(a: Value, b: Value): Value {
    if Truthy(a) then a else b
  }

  /**
   * `v[key]` for an own property of a plain object. Any other value (callers
   * exclude `null` and `undefined` where the source would throw) has no such
   * property and yields `undefined`.
   */
  function Prop(v: Value, key: string): Value {
    match v
    case Obj(fields) => if key in fields then fields[key] else Undefined
    case _ => Undefined
  }

  predicate IsDigit(c: char) {
    '0' <= c <= '9'
  }

  function DigitChar(d: nat): (c: char)
    requires d < 10
    ensures IsDigit(c) && c as int - '0' as int == d
  {
    ('0' as int + d) as char
  }

  /** Decimal spelling of a natural number, most significant digit first. */
  function Decimal(n: nat): string
    decreases n
  {
    if n < 10 then [DigitChar(n)] else Decimal(n / 10) + [DigitChar(n % 10)]
  }

  /** `String(n)` for an integer n. */
  function NumberText(n: int): string {
    if n >= 0 then Decimal(n) else "-" + Decimal(-n)
  }

  /**
   * `String(v)`, also what a template literal `${v}` inserts. Arrays are
   * joined with commas, their null and undefined elements becoming empty.
   */
  function ToText(v: Value): string
    decreases v, 1
  {
    match v
    case Undefined => "undefined"
    case Null => "null"
    case Bool(b) => if b then "true" else "false"
    case Num(n) => NumberText(n)
    case Str(s) => s
    case Arr(items) => JoinItems(v, |items|)
    case Obj(_) => "[object Object]"
  }

  /** `arr.slice(0, k).join(",")`. */
  function JoinItems(arr: Value, k: nat): string
    requires arr.Arr? && k <= |arr.items|
    decreases arr, 0, k
  {
    if k == 0 then ""
    else
      var item := arr.items[k - 1];
      var t := if Nullish(item) then "" else ToText(item);
      if k == 1 then t else JoinItems(arr, k - 1) + "," + t
  }

  /** What `el.textContent = v` stores: `null` and `undefined` clear the text. */
  function TextContent(v: Value): string {
    if Nullish(v) then "" else ToText(v)
  }

  /** The number a non-empty run of decimal digits spells; NaN if any character is not a digit. */
  function DigitsNumber(s: string): Number
    decreases |s|
  {
    if s == [] || !IsDigit(s[|s| - 1]) then NaN
    else
      var d := s[|s| - 1] as int - '0' as int;
      if |s| == 1 then Int(d)
      else match DigitsNumber(s[..|s| - 1])
        case NaN => NaN
        case Int(m) => Int(m * 10 + d)
  }

  /**
   * ToNumber of a string, for the plain spellings: the empty string is 0, an
   * optional sign followed by decimal digits is that integer, anything else NaN.
   */
  function StringToNumber(s: string): Number {
    if s == "" then Int(0)
    else if s[0] == '-' then (match DigitsNumber(s[1..]) case NaN => NaN case Int(m) => Int(-m))
    else if s[0] == '+' then DigitsNumber(s[1..])
    else DigitsNumber(s)
  }

  /**
   * ToNumber(v). An array or object converts through its string form: an
   * empty array is 0, a one-element array converts as its element's string
   * does (a null element as ""), a longer array has a comma and is NaN, and
   * an object's "[object Object]" is NaN. `ToNumberThroughText` proves this
   * agrees with converting `ToText(v)`.
   */
  function ToNumber(v: Value): Number
    decreases v
  {
    match v
    case Undefined => NaN
    case Null => Int(0)
    case Bool(b) => Int(if b then 1 else 0)
    case Num(n) => Int(n)
    case Str(s) => StringToNumber(s)
    case Arr(items) =>
      if |items| == 0 then Int(0)
      else if |items| > 1 then NaN
      else if Nullish(items[0]) then Int(0)
      else if items[0].Bool? then NaN
      else ToNumber(items[0])
    case Obj(_) => NaN
  }

  /** `v < 1`: false whenever v converts to NaN. */
  predicate BelowOne(v: Value) {
    ToNumber(v).Int? && ToNumber(v).i < 1
  }

  /** `i <= v` for a number i: false whenever v converts to NaN. */
  predicate AtMost(i: int, v: Value) {
    ToNumber(v).Int? && i <= ToNumber(v).i
  }

  /** Every decimal spelling is non-empty, starts with a digit and reads back as the number it spells. */
  lemma {:induction false} DecimalRoundTrip(n: nat)
    ensures |Decimal(n)| >= 1 && IsDigit(Decimal(n)[0])
    ensures DigitsNumber(Decimal(n)) == Int(n)
    decreases n
  {
    if n >= 10 {
      DecimalRoundTrip(n / 10);
      var s := Decimal(n);
      assert s[..|s| - 1] == Decimal(n / 10);
      assert s[0] == Decimal(n / 10)[0];
    }
  }

  /**
   * Number to string and back is the identity: a number printed into a
   * header or a `data-col` attribute converts back to the same number.
   */
  lemma NumberTextRoundTrip(n: int)
    ensures ToNumber(Str(ToText(Num(n)))) == Int(n)
  {
    if n >= 0 {
      DecimalRoundTrip(n);
    } else {
      DecimalRoundTrip(-n);
      var s := "-" + Decimal(-n);
      assert s[1..] == Decimal(-n);
    }
  }

  /** A string with a non-digit anywhere is not a run of digits. */
  lemma {:induction false} NonDigitIsNaN(s: string, k: nat)
    requires k < |s| && !IsDigit(s[k])
    ensures DigitsNumber(s) == NaN
    decreases |s|
  {
    if k < |s| - 1 {
      NonDigitIsNaN(s[..|s| - 1], k);
    }
  }

  /** A string holding a comma, such as a joined array of two or more items, converts to NaN. */
  lemma CommaIsNaN(s: string, k: nat)
    requires k < |s| && s[k] == ','
    ensures StringToNumber(s) == NaN
  {
    if s[0] == '-' || s[0] == '+' {
      NonDigitIsNaN(s[1..], k - 1);
    } else {
      NonDigitIsNaN(s, k);
    }
  }

  /** An unsigned string whose last character is not a digit (as in "true", "false" and "[object Object]") converts to NaN. */
  lemma WordIsNaN(s: string)
    requires |s| >= 1 && s[0] != '-' && s[0] != '+' && !IsDigit(s[|s| - 1])
    ensures StringToNumber(s) == NaN
  {
    NonDigitIsNaN(s, |s| - 1);
  }

  /**
   * The direct conversion of an array or object agrees with JavaScript's
   * route through the string: `Number(v)` is `Number(String(v))`.
   */
  lemma {:induction false} ToNumberThroughText(v: Value)
    requires v.Arr? || v.Obj?
    ensures ToNumber(v) == StringToNumber(ToText(v))
    decreases v
  {
    match v
    case Obj(_) =>
      WordIsNaN("[object Object]");
    case Arr(items) =>
      if |items| >= 2 {
        var k := |items|;
        var prev := JoinItems(v, k - 1);
        var t := if Nullish(items[k - 1]) then "" else ToText(items[k - 1]);
        assert ToText(v) == prev + "," + t;
        assert ToText(v)[|prev|] == ',';
        CommaIsNaN(ToText(v), |prev|);
      } else if |items| == 1 {
        var x := items[0];
        assert ToText(v) == if Nullish(x) then "" else ToText(x);
        match x
        case Bool(b) =>
          if b { WordIsNaN("true"); } else { WordIsNaN("false"); }
        case Num(n) =>
          NumberTextRoundTrip(n);
        case Arr(_) =>
          ToNumberThroughText(x);
        case Obj(_) =>
          WordIsNaN("[object Object]");
        case _ =>
      }
  }
}
