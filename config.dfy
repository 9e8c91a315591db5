/**
 * Construction-time validation of a chart configuration.
 */
module Config {
  import opened JsValue

  /**
   * The errors the constructor throws. NotAnObject is the TypeError raised
   * when the configuration itself is null or undefined and `title` is read.
   */
  datatype ConfigError =
    | MissingTitle
    | BadWeeks
    | MissingSwimlanes
    | NotAnObject
  {
    /** The message of the `Error` the constructor throws; a TypeError's message is the engine's. */
    function Message(): string
      requires !NotAnObject?
    {
      match this
      case MissingTitle => "Config must have a title"
      case BadWeeks => "Config must specify number of weeks (>= 1)"
      case MissingSwimlanes => "Config must have swimlanes array"
    }
  }

  datatype Outcome = Pass | Fail(error: ConfigError)

  /**
   * The three guards of the constructor, checked in order; the first that
   * fails decides the error. Nothing else in the configuration is inspected.
   */
  function ValidateConfig(config: Value): Outcome {
    if Nullish(config) then Fail(NotAnObject)
    else if !Truthy(Prop(config, "title")) then Fail(MissingTitle)
    else if !Truthy(Prop(config, "weeks")) || BelowOne(Prop(config, "weeks")) then Fail(BadWeeks)
    else if !Truthy(Prop(config, "swimlanes")) || !Prop(config, "swimlanes").Arr? then Fail(MissingSwimlanes)
    else Pass
  }
}
