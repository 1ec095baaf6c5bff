/**
 * The read-only schema the diagram builder walks: tables, their columns and
 * the foreign-key constraints that bind a parent column to a child column.
 */
module SchemaModel {

  /** Tables are known by an id; nothing else about a table matters to the builder. */
  type TableId = nat

  /** A column belongs to exactly one table and carries the two exclusion flags. */
  datatype Column = Column(table: TableId, name: string, excluded: bool, allExcluded: bool)

  /** A foreign key from `child` to `parent`; `implied` ones were inferred, the others declared. */
  datatype Constraint = Constraint(parent: Column, child: Column, implied: bool)

  /** `columns` lists the columns of every table, in table order; `constraints` holds every foreign key. */
  datatype Schema = Schema(columns: seq<Column>, constraints: set<Constraint>)

  /**
   * A structurally valid schema: both ends of every constraint are listed
   * columns, and there is one constraint per (parent column, child column) pair.
   */
  predicate WellFormed(s: Schema)
  {
    && (forall k | k in s.constraints :: k.parent in s.columns && k.child in s.columns)
    && (forall k1, k2 | k1 in s.constraints && k2 in s.constraints && k1.parent == k2.parent && k1.child == k2.child :: k1 == k2)
  }

  /** The exclusion test applied to a column during relative discovery. */
  predicate Survives(c: Column, includeExcluded: bool)
  {
    !c.allExcluded && (includeExcluded || !c.excluded)
  }

  /** A constraint may be drawn: it is declared, or implied ones are included. */
  predicate Admitted(k: Constraint, includeImplied: bool)
  {
    includeImplied || !k.implied
  }

  /** One end of `k` lies in table `t`. */
  predicate Touches(k: Constraint, t: TableId)
  {
    k.parent.table == t || k.child.table == t
  }

  /** `k` goes between tables `a` and `b`, in either direction. */
  predicate Crosses(k: Constraint, a: TableId, b: TableId)
  {
    (k.parent.table == a && k.child.table == b) || (k.parent.table == b && k.child.table == a)
  }
}
