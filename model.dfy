/** The records that flow between the pipeline's stages: canonical charts and change requests. */
module Model {
  import opened Basics
  import opened Json

  /**
   * A canonical chart record, as both extractors write it (charts.json and
   * revEngCharts.json). A None field is one the record does not have.
   */
  datatype Chart = Chart(
    dashboard: Option<Value>,
    id: string,
    chartType: Option<Value>,
    title: Option<Value>,
    fieldMappings: Option<Value>,
    saql: Option<Value>,
    style: Option<Value>)

  /** The properties the reconciler compares, in the order it compares them. */
  datatype Prop = DashboardProp | TitleProp | TypeProp | SaqlProp | FieldMappingsProp | StyleProp

  const ComparedProps: seq<Prop> := [DashboardProp, TitleProp, TypeProp, SaqlProp, FieldMappingsProp, StyleProp]

  function PropName(p: Prop): string
  {
    match p
    case DashboardProp => "dashboard"
    case TitleProp => "title"
    case TypeProp => "type"
    case SaqlProp => "saql"
    case FieldMappingsProp => "fieldMappings"
    case StyleProp => "style"
  }

  function PropOf(c: Chart, p: Prop): Option<Value>
  {
    match p
    case DashboardProp => c.dashboard
    case TitleProp => c.title
    case TypeProp => c.chartType
    case SaqlProp => c.saql
    case FieldMappingsProp => c.fieldMappings
    case StyleProp => c.style
  }

  datatype Mismatch = Mismatch(property: string, currentValue: Option<Value>, expectedValue: Option<Value>)

  /**
   * The `mismatches` member of a change as read back from JSON: absent, an
   * array, or some other value, which is either truthy or falsy.
   */
  datatype MismatchField = Absent | List(items: seq<Mismatch>) | NotAList(truthy: bool)

  /**
   * One entry of changeRequests.json. `action` is "add", "update", "remove" or
   * anything a hand edit put there; only updates carry `instructions`.
   */
  datatype Change = Change(
    chartId: string,
    action: string,
    targetFile: string,
    mismatches: MismatchField,
    instructions: Option<seq<string>>)

  /** The only target file the generator writes and the patcher acts on. */
  const TargetFile: string := "dynamicCharts.js"
}
