/** The PCB design data model shared by the backend and the frontend. Every
    default a field has in the schema is the default of the corresponding
    constructor parameter here. Floating-point values (coordinates, rotation,
    numeric property values) are carried as `real` and never inspected. */
module Schema {

  datatype Option<T> = None | Some(value: T)

  /** How serious a design-rule issue is. */
  datatype Severity = Info | Warning | Error

  /** The six kinds of design-rule issue. */
  datatype IssueType =
    | UnconnectedNet
    | ShortCircuit
    | ClearanceViolation
    | BoardEdge
    | MissingComponent
    | InvalidConnection

  /** The wire name of a severity. */
  function SeverityName(s: Severity): string {
    match s
    case Info => "info"
    case Warning => "warning"
    case Error => "error"
  }

  /** Reads a severity from its wire name; any other string is rejected. */
  function ParseSeverity(name: string): (r: Option<Severity>)
    ensures r.Some? ==> SeverityName(r.value) == name
  {
    if name == "info" then Some(Info)
    else if name == "warning" then Some(Warning)
    else if name == "error" then Some(Error)
    else None
  }

  /** The wire name of an issue type. */
  function IssueTypeName(t: IssueType): string {
    match t
    case UnconnectedNet => "unconnected_net"
    case ShortCircuit => "short_circuit"
    case ClearanceViolation => "clearance_violation"
    case BoardEdge => "board_edge"
    case MissingComponent => "missing_component"
    case InvalidConnection => "invalid_connection"
  }

  /** Reads an issue type from its wire name; any other string is rejected. */
  function ParseIssueType(name: string): (r: Option<IssueType>)
    ensures r.Some? ==> IssueTypeName(r.value) == name
  {
    if name == "unconnected_net" then Some(UnconnectedNet)
    else if name == "short_circuit" then Some(ShortCircuit)
    else if name == "clearance_violation" then Some(ClearanceViolation)
    else if name == "board_edge" then Some(BoardEdge)
    else if name == "missing_component" then Some(MissingComponent)
    else if name == "invalid_connection" then Some(InvalidConnection)
    else None
  }

  /** Exactly the three severities round-trip through their names, and the
      names are pairwise distinct. */
  lemma SeverityRoundTrip(s: Severity, name: string)
    ensures ParseSeverity(SeverityName(s)) == Some(s)
    ensures ParseSeverity(name) == Some(s) <==> name == SeverityName(s)
  {
  }

  /** Exactly the six issue types round-trip through their names. */
  lemma IssueTypeRoundTrip(t: IssueType, name: string)
    ensures ParseIssueType(IssueTypeName(t)) == Some(t)
    ensures ParseIssueType(name) == Some(t) <==> name == IssueTypeName(t)
  {
  }

  datatype PropertyValue = Number(number: real) | Text(text: string)

  /** A component property such as a resistance value or package type. */
  datatype ComponentProperty = ComponentProperty(name: string, value: PropertyValue, unit: Option<string> := None)

  /** A placed part. `kind` is the schema's free-form type string ("resistor",
      "led", "mcu", ...); `position` is the [x, y] list, absent until placed. */
  datatype Component = Component(
    id: string,
    kind: string,
    properties: map<string, ComponentProperty> := map[],
    position: Option<seq<real>> := None,
    rotation: Option<real> := None)

  /** An electrical net: connection ids of the form "componentId.pinName". */
  datatype Net = Net(id: string, connectionIds: seq<string> := [], name: Option<string> := None)

  /** The board: outline polygon points, parts, nets and the layer count. */
  datatype Board = Board(
    outline: seq<seq<real>> := [],
    components: seq<Component> := [],
    nets: seq<Net> := [],
    layers: int := 1)

  /** A value stored in an issue's location dictionary. The schema allows any
      JSON value there; the model keeps the strings and numbers the checks
      produce and the location examples show. */
  datatype LocationValue = LocText(text: string) | LocNumber(number: real)

  /** A design-rule issue. */
  datatype Issue = Issue(
    id: string,
    kind: IssueType := UnconnectedNet,
    severity: Severity,
    message: string,
    relatedIds: seq<string> := [],
    location: Option<map<string, LocationValue>> := None)

  /** A complete design project. */
  datatype Design = Design(
    id: string,
    name: string,
    board: Board,
    issues: seq<Issue> := [],
    createdAt: Option<string> := None,
    updatedAt: Option<string> := None)

  /** What an entity is when only its required fields are given. */
  lemma Defaults(id: string, kind: string, name: string, severity: Severity, message: string, board: Board)
    ensures Component(id, kind).properties == map[] && Component(id, kind).position.None? && Component(id, kind).rotation.None?
    ensures Net(id).connectionIds == [] && Net(id).name.None?
    ensures Board() == Board([], [], [], 1)
    ensures var iss := Issue(id := id, severity := severity, message := message);
      iss.kind == UnconnectedNet && iss.relatedIds == [] && iss.location.None?
    ensures var d := Design(id, name, board);
      d.issues == [] && d.createdAt.None? && d.updatedAt.None?
  {
  }
}
