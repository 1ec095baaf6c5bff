/**
 * The connector finder the builder queries. Its implementation is not part
 * of this model; these two functions are the contract the builder relies on:
 * the single-table form returns the constraints touching one table, the
 * two-table form the constraints crossing between two tables, and implied
 * constraints are dropped unless they are included.
 */
module ConnectorFinder {
  import opened SchemaModel

  /** The single-table form. */
  function RelatedConnectors(s: Schema, t: TableId, includeImplied: bool): set<Constraint>
  {
    set k | k in s.constraints && Touches(k, t) && Admitted(k, includeImplied)
  }

  /** The two-table form. */
  function ConnectorsBetween(s: Schema, a: TableId, b: TableId, includeImplied: bool): set<Constraint>
  {
    set k | k in s.constraints && Crosses(k, a, b) && Admitted(k, includeImplied)
  }

  /** What the two-table form returns is also returned by the single-table form for either table. */
  lemma BetweenWithinRelated(s: Schema, a: TableId, b: TableId, includeImplied: bool)
    ensures ConnectorsBetween(s, a, b, includeImplied) <= RelatedConnectors(s, a, includeImplied)
    ensures ConnectorsBetween(s, a, b, includeImplied) <= RelatedConnectors(s, b, includeImplied)
  {
  }
}
