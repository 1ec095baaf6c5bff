/**
 * What the diagram of one table is promised to look like: which tables get
 * a node and how they are configured, which constraints are drawn and where
 * their ends attach, how implied constraints are accounted for, and the
 * behaviour with two-degree mode off. Each lemma is about `Build`, which the
 * builder is proved to produce.
 */
module DiagramProperties {
  import opened SchemaModel
  import opened ConnectorFinder
  import opened DotElements
  import opened TableRelatives
  import opened DiagramSpec

  /** The focal table is never one of its own immediate relatives, nor a participant before its node is added. */
  lemma FocalNotParticipant(s: Schema, f: Settings)
    ensures f.table !in Related(s, f)
    ensures f.table !in Participants(s, f)
  {
  }

  /**
   * Each node of the diagram: the focal table with full detail and no
   * excluded columns; an immediate relative with its columns; any other
   * table only as a cousin, minimal. No other table has a node.
   */
  lemma NodesOfDiagram(s: Schema, f: Settings, t: TableId)
    ensures t in Build(s, f).nodes <==> t == f.table || t in Related(s, f) || t in AllCousins(s, f)
    ensures t in Build(s, f).nodes ==>
              Build(s, f).nodes[t].config
                == if t == f.table then ColumnsConfig(true, true)
                   else if t in Related(s, f) then ColumnsConfig(false, false)
                   else MinimalConfig
  {
  }

  /** The excluded columns registered on a node are those of its table, and none on the focal table. */
  lemma ExcludedColumnsOfNode(s: Schema, f: Settings, t: TableId)
    requires t in Build(s, f).nodes
    ensures Build(s, f).nodes[t].excludedColumns == if t == f.table then {} else ColumnsOf(f.excludedColumns, t)
    ensures forall c | c in Build(s, f).nodes[t].excludedColumns :: c in f.excludedColumns && c.table == t
  {
  }

  /**
   * The drawn constraints are exactly the admitted constraints of the schema
   * on the focal table and those joining two different participants.
   */
  lemma ConnectorsOfDiagram(s: Schema, f: Settings, k: Constraint)
    ensures k in Build(s, f).connectors <==>
              k in s.constraints && Admitted(k, f.includeImplied)
              && (Touches(k, f.table) || Glued(k, Participants(s, f)))
  {
  }

  /** A constraint from a table to itself is drawn only on the focal table. */
  lemma SelfLoopsOnlyOnFocal(s: Schema, f: Settings, k: Constraint)
    requires k in Build(s, f).connectors && k.parent.table == k.child.table
    ensures k.parent.table == f.table
  {
  }

  /**
   * The anchor rules. The parent end attaches to the details exactly when
   * the parent is the focal table; a child end never does. An end attaches
   * to the title exactly when the connector is not on the focal table and
   * that end's table is a cousin that is not an immediate relative, the two
   * ends decided independently.
   */
  lemma {:induction false} AnchorRules(s: Schema, f: Settings, k: Constraint)
    requires k in Build(s, f).connectors
    ensures Build(s, f).connectors[k].parent == DetailsPort <==> k.parent.table == f.table
    ensures Build(s, f).connectors[k].child != DetailsPort
    ensures Build(s, f).connectors[k].parent == TitlePort <==>
              !Touches(k, f.table) && CousinOnly(AllCousins(s, f), Related(s, f), k.parent.table)
    ensures Build(s, f).connectors[k].child == TitlePort <==>
              !Touches(k, f.table) && CousinOnly(AllCousins(s, f), Related(s, f), k.child.table)
  {
    var related, cousins := Related(s, f), AllCousins(s, f);
    var ports := PortsFor(f, related, cousins, k);
    assert Build(s, f).connectors[k] == ports;
    if !Touches(k, f.table) {
      if CousinOnly(cousins, related, k.parent.table) || CousinOnly(cousins, related, k.child.table) {
        assert CousinRouted(f.twoDegreesOfSeparation, cousins, k);
      }
    }
  }

  /** The implied marker is set on a node exactly when a drawn implied constraint touches its table. */
  lemma ShowImpliedExactly(s: Schema, f: Settings, t: TableId)
    requires t in Build(s, f).nodes
    ensures Build(s, f).nodes[t].showImplied <==>
              exists k :: k in Build(s, f).connectors && k.implied && Touches(k, t)
  {
    var d := Build(s, f);
    if d.nodes[t].showImplied {
      assert t in ImpliedTables(d.connectors.Keys);
      if t in (set k | k in d.connectors.Keys && k.implied :: k.parent.table) {
        var k :| k in d.connectors.Keys && k.implied && k.parent.table == t;
        assert Touches(k, t);
      } else {
        var k :| k in d.connectors.Keys && k.implied && k.child.table == t;
        assert Touches(k, t);
      }
    }
    if exists k :: k in d.connectors && k.implied && Touches(k, t) {
      var k :| k in d.connectors && k.implied && Touches(k, t);
      assert t in ImpliedTables(d.connectors.Keys);
    }
  }

  /**
   * Implied constraints: with them included nothing is skipped; without
   * them none is drawn, and each skipped constraint is an implied
   * constraint of the schema.
   */
  lemma {:induction false} ImpliedAccounting(s: Schema, f: Settings)
    ensures f.includeImplied ==> Build(s, f).skipped == {}
    ensures !f.includeImplied ==> forall k | k in Build(s, f).connectors :: !k.implied
    ensures forall k | k in Build(s, f).skipped :: k.implied && k in s.constraints
  {
    var related := Related(s, f);
    ImpliedSkipsOnlyImplied(s, f.table, true, f.includeImplied);
    forall r | r in related
      ensures f.includeImplied ==> SkippedImplied(s, r, false, f.includeImplied) == {}
      ensures forall k | k in SkippedImplied(s, r, false, f.includeImplied) :: k.implied && k in s.constraints
    {
      ImpliedSkipsOnlyImplied(s, r, false, f.includeImplied);
    }
    if f.twoDegreesOfSeparation {
      forall k | k in CousinSkips(s, related, f.includeImplied) ensures k.implied && k in s.constraints {
        var r :| r in related && k in SkippedImplied(s, r, false, f.includeImplied);
      }
      if f.includeImplied {
        assert CousinSkips(s, related, f.includeImplied) == {};
      }
    }
  }

  /**
   * With two-degree mode off the diagram holds only the focal table and its
   * immediate relatives, no end attaches to a title, and the skipped
   * constraints are those of the focal table's relative discovery.
   */
  lemma OneDegreeDiagram(s: Schema, f: Settings)
    requires !f.twoDegreesOfSeparation
    ensures Build(s, f).nodes.Keys == Related(s, f) + {f.table}
    ensures forall k | k in Build(s, f).connectors ::
              Build(s, f).connectors[k].parent != TitlePort && Build(s, f).connectors[k].child != TitlePort
    ensures Build(s, f).skipped == SkippedImplied(s, f.table, true, f.includeImplied)
  {
  }

  /**
   * When the schema is well formed and no column is excluded from every
   * diagram, both ends of every drawn constraint have a node.
   */
  lemma {:induction false} EndpointsHaveNodes(s: Schema, f: Settings, k: Constraint)
    requires WellFormed(s)
    requires forall c | c in s.columns :: !c.allExcluded
    requires k in Build(s, f).connectors
    ensures k.parent.table in Build(s, f).nodes && k.child.table in Build(s, f).nodes
  {
    var d := Build(s, f);
    ConnectorsOfDiagram(s, f, k);
    NodesOfDiagram(s, f, k.parent.table);
    NodesOfDiagram(s, f, k.child.table);
    if Touches(k, f.table) {
      var other := if k.parent.table == f.table then k.child.table else k.parent.table;
      assert Followed(s, f.table, true, k) && Crosses(k, f.table, other);
      RelativesExactly(s, f.table, true, f.includeImplied, other);
    }
  }
}
