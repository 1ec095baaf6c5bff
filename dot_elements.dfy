/**
 * The diagram's elements as the builder manipulates them: connectors (edges
 * with an attachment port at each end) and nodes (one per table). The
 * rendering of either is not part of this model.
 */
module DotElements {
  import opened SchemaModel

  /** Where an edge end is attached on a table's box. */
  datatype Port =
    | ColumnPort   // the row of the constraint's column (a fresh connector's default)
    | DetailsPort  // the details cell of that row, used at the focal table's end
    | TitlePort    // the table's title, used where the table is drawn without columns

  /** The ports of a connector's parent end and child end. */
  datatype Ports = Ports(parent: Port, child: Port)

  /** The ports of a connector the finder has just created. */
  const NEW_PORTS := Ports(ColumnPort, ColumnPort)

  /**
   * A sorted set of connectors. Connectors are ordered by the constraint they
   * draw, so the set holds at most one connector per constraint: a map from
   * the constraint to the ports of its connector.
   */
  type Connectors = map<Constraint, Ports>

  /**
   * Adds freshly found connectors for `found`. As in a sorted set, a connector
   * whose constraint is already present is not added: the present one,
   * with its ports, stays.
   */
  function AddAll(m: Connectors, found: set<Constraint>): (r: Connectors)
    ensures r.Keys == m.Keys + found
    ensures forall k | k in m :: r[k] == m[k]
    ensures forall k | k in found && k !in m :: r[k] == NEW_PORTS
  {
    map k | k in m.Keys + found :: if k in m then m[k] else NEW_PORTS
  }

  /** Adds every connector of `more` whose constraint is not yet in `into`. */
  function Merge(into: Connectors, more: Connectors): (r: Connectors)
    ensures r.Keys == into.Keys + more.Keys
    ensures forall k | k in into :: r[k] == into[k]
    ensures forall k | k in more && k !in into :: r[k] == more[k]
  {
    more + into
  }

  /** Adding in two steps is adding the union once. */
  lemma AddAllTwice(m: Connectors, a: set<Constraint>, b: set<Constraint>)
    ensures AddAll(AddAll(m, a), b) == AddAll(m, a + b)
  {
  }

  /** The node configuration chosen at each construction site. */
  datatype NodeConfig =
    | MinimalConfig                                               // built with no arguments
    | ColumnsConfig(showTrivialColumns: bool, showColumnDetails: bool)  // built with two flags

  /** A table's node: its configuration, whether it shows the implied marker, and the columns it hides. */
  datatype Node = Node(config: NodeConfig, showImplied: bool, excludedColumns: set<Column>)

  /** A node as it is created: no implied marker, no hidden column. */
  function NewNode(config: NodeConfig): Node
  {
    Node(config, false, {})
  }

  /** The node of each table in the diagram. */
  type Nodes = map<TableId, Node>
}
