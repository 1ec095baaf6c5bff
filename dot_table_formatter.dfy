/**
 * The one-table relationship diagram builder. `WriteTableRelationships`
 * runs the phases of the build in order, each phase a method with the loops
 * of the Java methods; it is proved to produce the diagram `Build` describes.
 * Sets are visited in an arbitrary order (`:|`), as hash sets are.
 */
module DotTableFormatter {
  import opened SchemaModel
  import opened ConnectorFinder
  import opened DotElements
  import opened TableRelatives
  import opened DiagramSpec

  /**
   * Writes the immediate relatives: one node per relative not yet written,
   * and the connectors between each relative and the focal table added to
   * the focal table's own connectors.
   */
  method WriteImmediateRelatives(s: Schema, f: Settings, relatedTables: set<TableId>)
    returns (tablesWritten: set<TableId>, nodes: Nodes, connectors: Connectors)
    requires f.table !in relatedTables
    ensures tablesWritten == relatedTables + {f.table}
    ensures nodes == map r | r in relatedTables :: NewNode(ColumnsConfig(false, false))
    ensures connectors == AddAll(map[], RelatedConnectors(s, f.table, f.includeImplied))
  {
    connectors := AddAll(map[], RelatedConnectors(s, f.table, f.includeImplied));
    tablesWritten := {f.table};
    nodes := map[];
    var rest := relatedTables;
    while rest != {}
      invariant rest <= relatedTables
      invariant tablesWritten == (relatedTables - rest) + {f.table}
      invariant nodes == map r | r in relatedTables - rest :: NewNode(ColumnsConfig(false, false))
      invariant connectors == AddAll(map[], RelatedConnectors(s, f.table, f.includeImplied))
      decreases rest
    {
      var relatedTable :| relatedTable in rest;
      rest := rest - {relatedTable};
      if relatedTable !in tablesWritten {
        tablesWritten := tablesWritten + {relatedTable};
        nodes := nodes[relatedTable := NewNode(ColumnsConfig(false, false))];
        BetweenWithinRelated(s, relatedTable, f.table, f.includeImplied);
        connectors := AddAll(connectors, ConnectorsBetween(s, relatedTable, f.table, f.includeImplied));
      }
    }
  }

  /** Points every connector whose parent end is the focal table at that table's details. */
  method ConnectToFocalDetails(connectorsIn: Connectors, focal: TableId) returns (connectors: Connectors)
    ensures connectors.Keys == connectorsIn.Keys
    ensures forall k | k in connectorsIn ::
              connectors[k] == if k.parent.table == focal then connectorsIn[k].(parent := DetailsPort) else connectorsIn[k]
  {
    connectors := connectorsIn;
    var rest := connectorsIn.Keys;
    while rest != {}
      invariant rest <= connectorsIn.Keys && connectors.Keys == connectorsIn.Keys
      invariant forall k | k in rest :: connectors[k] == connectorsIn[k]
      invariant forall k | k in connectorsIn && k !in rest ::
                  connectors[k] == if k.parent.table == focal then connectorsIn[k].(parent := DetailsPort) else connectorsIn[k]
      decreases rest
    {
      var k :| k in rest;
      rest := rest - {k};
      if k.parent.table == focal {
        connectors := connectors[k := connectors[k].(parent := DetailsPort)];
      }
    }
  }

  /** The connectors the finder returns between `relatedTable` and each table of `cousins`. */
  function CousinLinks(s: Schema, relatedTable: TableId, cousins: set<TableId>, includeImplied: bool): set<Constraint>
  {
    set c, k | c in cousins && k in ConnectorsBetween(s, c, relatedTable, includeImplied) :: k
  }

  /** Linking one more cousin adds that cousin's connectors to the relative. */
  lemma CousinLinksStep(s: Schema, relatedTable: TableId, cousins: set<TableId>, cousin: TableId, includeImplied: bool)
    ensures CousinLinks(s, relatedTable, cousins + {cousin}, includeImplied)
         == CousinLinks(s, relatedTable, cousins, includeImplied) + ConnectorsBetween(s, cousin, relatedTable, includeImplied)
  {
  }

  /** Each connector linking cousins is an admitted constraint between the relative and one of them. */
  lemma CousinLinksCross(s: Schema, relatedTable: TableId, cousins: set<TableId>, includeImplied: bool, k: Constraint)
    requires k in CousinLinks(s, relatedTable, cousins, includeImplied)
    ensures k in s.constraints && Admitted(k, includeImplied)
    ensures || (k.parent.table == relatedTable && k.child.table in cousins)
            || (k.child.table == relatedTable && k.parent.table in cousins)
  {
    var c :| c in cousins && k in ConnectorsBetween(s, c, relatedTable, includeImplied);
  }

  /** Adding one more cousin's connectors keeps the cousins' connectors linked as described. */
  lemma CousinLinkedStep(s: Schema, relatedTable: TableId, cousinConnectorsIn: Connectors, linked: set<TableId>,
                         cousin: TableId, includeImplied: bool, cousinConnectors0: Connectors, cousinConnectors1: Connectors)
    requires cousinConnectors0 == AddAll(cousinConnectorsIn, CousinLinks(s, relatedTable, linked, includeImplied))
    requires cousinConnectors1 == AddAll(cousinConnectors0, ConnectorsBetween(s, cousin, relatedTable, includeImplied))
    ensures cousinConnectors1 == AddAll(cousinConnectorsIn, CousinLinks(s, relatedTable, linked + {cousin}, includeImplied))
  {
    AddAllTwice(cousinConnectorsIn, CousinLinks(s, relatedTable, linked, includeImplied),
                ConnectorsBetween(s, cousin, relatedTable, includeImplied));
    CousinLinksStep(s, relatedTable, linked, cousin, includeImplied);
  }

  /** The connectors linking newly written cousins are fresh, admitted, and join the relative to one of them. */
  lemma CousinConnectorsNew(s: Schema, f: Settings, relatedTable: TableId, linked: set<TableId>, nodesIn: Nodes, nodes: Nodes,
                            cousinConnectorsIn: Connectors, cousinConnectors: Connectors)
    requires cousinConnectors == AddAll(cousinConnectorsIn, CousinLinks(s, relatedTable, linked, f.includeImplied))
    requires forall c | c in linked :: c in nodes && c !in nodesIn
    ensures forall k | k in cousinConnectors && k !in cousinConnectorsIn ::
              && cousinConnectors[k] == NEW_PORTS && k in s.constraints && Admitted(k, f.includeImplied)
              && ((k.parent.table == relatedTable && k.child.table in nodes && k.child.table !in nodesIn)
                  || (k.child.table == relatedTable && k.parent.table in nodes && k.parent.table !in nodesIn))
  {
    forall k | k in cousinConnectors && k !in cousinConnectorsIn
      ensures k in s.constraints && Admitted(k, f.includeImplied)
      ensures || (k.parent.table == relatedTable && k.child.table in linked)
              || (k.child.table == relatedTable && k.parent.table in linked)
    {
      CousinLinksCross(s, relatedTable, linked, f.includeImplied, k);
    }
  }

  /** The nodes once the cousins in `seen` have been visited: a minimal node for each one not written before. */
  ghost predicate CousinNodesSoFar(f: Settings, seen: set<TableId>, nodesIn: Nodes, tablesWritten: set<TableId>, nodes: Nodes)
  {
    && nodes.Keys == nodesIn.Keys + (seen - {f.table})
    && tablesWritten == nodes.Keys + {f.table}
    && (forall t | t in nodesIn :: nodes[t] == nodesIn[t])
    && (forall t | t in nodes && t !in nodesIn :: nodes[t] == NewNode(MinimalConfig))
  }

  /** Visiting one more cousin: it is written exactly when it was not written before the phase. */
  lemma CousinNodesStep(f: Settings, seen: set<TableId>, cousin: TableId, tablesIn: set<TableId>, nodesIn: Nodes,
                        tables0: set<TableId>, nodes0: Nodes, tables1: set<TableId>, nodes1: Nodes)
    requires cousin !in seen && tablesIn == nodesIn.Keys + {f.table}
    requires CousinNodesSoFar(f, seen, nodesIn, tables0, nodes0)
    requires if cousin in tables0 then tables1 == tables0 && nodes1 == nodes0
             else tables1 == tables0 + {cousin} && nodes1 == nodes0[cousin := NewNode(MinimalConfig)]
    ensures CousinNodesSoFar(f, seen + {cousin}, nodesIn, tables1, nodes1)
    ensures (seen + {cousin}) - tablesIn
            == if cousin in tables0 then seen - tablesIn else (seen - tablesIn) + {cousin}
  {
  }

  /**
   * Writes the cousins found from one immediate relative: a node for each
   * cousin not yet written, and the connectors between that cousin and the
   * relative added to the cousins' connectors.
   */
  method WriteCousinsOf(s: Schema, f: Settings, relatedTable: TableId, cousins: set<TableId>,
                        tablesIn: set<TableId>, nodesIn: Nodes, cousinConnectorsIn: Connectors)
    returns (tablesWritten: set<TableId>, nodes: Nodes, cousinConnectors: Connectors)
    requires relatedTable in nodesIn && f.table !in nodesIn
    requires tablesIn == nodesIn.Keys + {f.table}
    ensures nodes.Keys == nodesIn.Keys + (cousins - {f.table})
    ensures tablesWritten == nodes.Keys + {f.table}
    ensures forall t | t in nodesIn :: nodes[t] == nodesIn[t]
    ensures forall t | t in nodes && t !in nodesIn :: nodes[t] == NewNode(MinimalConfig)
    ensures cousinConnectorsIn.Keys <= cousinConnectors.Keys
    ensures forall k | k in cousinConnectorsIn :: cousinConnectors[k] == cousinConnectorsIn[k]
    ensures forall k | k in cousinConnectors && k !in cousinConnectorsIn ::
              && cousinConnectors[k] == NEW_PORTS && k in s.constraints && Admitted(k, f.includeImplied)
              && ((k.parent.table == relatedTable && k.child.table in nodes && k.child.table !in nodesIn)
                  || (k.child.table == relatedTable && k.parent.table in nodes && k.parent.table !in nodesIn))
    ensures cousinConnectors == AddAll(cousinConnectorsIn, CousinLinks(s, relatedTable, cousins - tablesIn, f.includeImplied))
  {
    tablesWritten, nodes, cousinConnectors := tablesIn, nodesIn, cousinConnectorsIn;
    var rest := cousins;
    ghost var seen: set<TableId> := {};
    while rest != {}
      invariant seen + rest == cousins && seen !! rest
      invariant CousinNodesSoFar(f, seen, nodesIn, tablesWritten, nodes)
      invariant cousinConnectors == AddAll(cousinConnectorsIn, CousinLinks(s, relatedTable, seen - tablesIn, f.includeImplied))
      decreases rest
    {
      var cousin :| cousin in rest;
      ghost var tables0, nodes0 := tablesWritten, nodes;
      if cousin !in tablesWritten {
        tablesWritten := tablesWritten + {cousin};
        ghost var cousinConnectors0 := cousinConnectors;
        cousinConnectors := AddAll(cousinConnectors, ConnectorsBetween(s, cousin, relatedTable, f.includeImplied));
        CousinLinkedStep(s, relatedTable, cousinConnectorsIn, seen - tablesIn, cousin, f.includeImplied,
                         cousinConnectors0, cousinConnectors);
        nodes := nodes[cousin := NewNode(MinimalConfig)];
      }
      CousinNodesStep(f, seen, cousin, tablesIn, nodesIn, tables0, nodes0, tablesWritten, nodes);
      rest, seen := rest - {cousin}, seen + {cousin};
    }
    CousinConnectorsNew(s, f, relatedTable, cousins - tablesIn, nodesIn, nodes, cousinConnectorsIn, cousinConnectors);
  }

  /** Splitting off one relative splits its cousins and skips off the unions. */
  lemma CousinsStep(s: Schema, done: set<TableId>, r: TableId, includeImplied: bool)
    ensures Cousins(s, done + {r}, includeImplied) == Cousins(s, done, includeImplied) + Relatives(s, r, false, includeImplied)
    ensures CousinSkips(s, done + {r}, includeImplied) == CousinSkips(s, done, includeImplied) + SkippedImplied(s, r, false, includeImplied)
  {
  }

  /** The nodes and cousins' connectors of the cousin phase, once the cousins found so far are `allCousins`. */
  ghost predicate CousinsWritten(s: Schema, f: Settings, relatedTables: set<TableId>, nodesIn: Nodes,
                                 tablesWritten: set<TableId>, nodes: Nodes, allCousins: set<TableId>,
                                 allCousinConnectors: Connectors)
  {
    && nodes.Keys == relatedTables + (allCousins - {f.table})
    && tablesWritten == nodes.Keys + {f.table}
    && (forall t | t in nodesIn :: t in nodes && nodes[t] == nodesIn[t])
    && (forall t | t in nodes && t !in nodesIn :: nodes[t] == NewNode(MinimalConfig))
    && CousinConnectorsKept(s, f, nodes.Keys, allCousins, allCousinConnectors)
  }

  /** Every cousins' connector so far is new, admitted, joins two tables with nodes and has a cousin at one end. */
  ghost predicate CousinConnectorsKept(s: Schema, f: Settings, written: set<TableId>, allCousins: set<TableId>,
                                       allCousinConnectors: Connectors)
  {
    forall k | k in allCousinConnectors ::
      && allCousinConnectors[k] == NEW_PORTS && k in s.constraints && Admitted(k, f.includeImplied)
      && Glued(k, written) && (k.parent.table in allCousins || k.child.table in allCousins)
  }

  /** The connectors one relative's cousins add keep the cousins' connectors as described. */
  lemma CousinConnectorsStep(s: Schema, f: Settings, r: TableId, cousins: set<TableId>,
                             written0: set<TableId>, allCousins0: set<TableId>, connectors0: Connectors,
                             written1: set<TableId>, connectors1: Connectors)
    requires CousinConnectorsKept(s, f, written0, allCousins0, connectors0)
    requires r in written0 && written1 == written0 + (cousins - {f.table})
    requires connectors0.Keys <= connectors1.Keys
    requires forall k | k in connectors0 :: connectors1[k] == connectors0[k]
    requires forall k | k in connectors1 && k !in connectors0 ::
              && connectors1[k] == NEW_PORTS && k in s.constraints && Admitted(k, f.includeImplied)
              && ((k.parent.table == r && k.child.table in written1 && k.child.table !in written0)
                  || (k.child.table == r && k.parent.table in written1 && k.parent.table !in written0))
    ensures CousinConnectorsKept(s, f, written1, allCousins0 + cousins, connectors1)
  {
    forall k | k in connectors1
      ensures && connectors1[k] == NEW_PORTS && k in s.constraints && Admitted(k, f.includeImplied)
              && Glued(k, written1) && (k.parent.table in allCousins0 + cousins || k.child.table in allCousins0 + cousins)
    {
      if k in connectors0 {
        assert Glued(k, written0);
      }
    }
  }

  /** The cousins and skipped constraints found from the relatives in `done`. */
  ghost predicate CousinsSoFar(s: Schema, f: Settings, done: set<TableId>, skippedIn: set<Constraint>,
                               allCousins: set<TableId>, skippedOut: set<Constraint>)
  {
    allCousins == Cousins(s, done, f.includeImplied) && skippedOut == skippedIn + CousinSkips(s, done, f.includeImplied)
  }

  lemma CousinsSoFarStep(s: Schema, f: Settings, done: set<TableId>, r: TableId, skippedIn: set<Constraint>,
                         allCousins: set<TableId>, skipped0: set<Constraint>,
                         cousins: set<TableId>, skipped1: set<Constraint>)
    requires CousinsSoFar(s, f, done, skippedIn, allCousins, skipped0)
    requires cousins == Relatives(s, r, false, f.includeImplied)
    requires skipped1 == skipped0 + SkippedImplied(s, r, false, f.includeImplied)
    ensures CousinsSoFar(s, f, done + {r}, skippedIn, allCousins + cousins, skipped1)
  {
    CousinsStep(s, done, r, f.includeImplied);
  }

  /** Writing the cousins found from one more relative keeps the cousin phase's state as described. */
  lemma CousinsWrittenStep(s: Schema, f: Settings, relatedTables: set<TableId>, r: TableId, nodesIn: Nodes,
                           nodes0: Nodes, allCousins0: set<TableId>, connectors0: Connectors,
                           cousins: set<TableId>, tables1: set<TableId>, nodes1: Nodes, connectors1: Connectors)
    requires CousinsWritten(s, f, relatedTables, nodesIn, nodes0.Keys + {f.table}, nodes0, allCousins0, connectors0)
    requires r in relatedTables
    requires nodes1.Keys == nodes0.Keys + (cousins - {f.table})
    requires tables1 == nodes1.Keys + {f.table}
    requires forall t | t in nodes0 :: nodes1[t] == nodes0[t]
    requires forall t | t in nodes1 && t !in nodes0 :: nodes1[t] == NewNode(MinimalConfig)
    requires connectors0.Keys <= connectors1.Keys
    requires forall k | k in connectors0 :: connectors1[k] == connectors0[k]
    requires forall k | k in connectors1 && k !in connectors0 ::
              && connectors1[k] == NEW_PORTS && k in s.constraints && Admitted(k, f.includeImplied)
              && ((k.parent.table == r && k.child.table in nodes1 && k.child.table !in nodes0)
                  || (k.child.table == r && k.parent.table in nodes1 && k.parent.table !in nodes0))
    ensures CousinsWritten(s, f, relatedTables, nodesIn, tables1, nodes1, allCousins0 + cousins, connectors1)
  {
    CousinConnectorsStep(s, f, r, cousins, nodes0.Keys, allCousins0, connectors0, nodes1.Keys, connectors1);
    assert nodes1.Keys == relatedTables + ((allCousins0 + cousins) - {f.table});
  }

  /**
   * Every cousin that is neither an immediate relative nor the focal table
   * has the connectors to some relative that reaches it among the cousins'
   * connectors. Which relative that is depends on the order the relatives
   * are visited in.
   */
  ghost predicate CousinsLinked(s: Schema, f: Settings, relatedTables: set<TableId>, allCousins: set<TableId>,
                                allCousinConnectors: Connectors)
  {
    forall c | c in allCousins && c !in relatedTables && c != f.table ::
      exists r :: r in relatedTables && c in Relatives(s, r, false, f.includeImplied)
                  && ConnectorsBetween(s, c, r, f.includeImplied) <= allCousinConnectors.Keys
  }

  /** Writing the cousins of one more relative keeps every cousin linked. */
  lemma CousinsLinkedStep(s: Schema, f: Settings, relatedTables: set<TableId>, r: TableId,
                          allCousins0: set<TableId>, connectors0: Connectors, tables0: set<TableId>,
                          cousins: set<TableId>, connectors1: Connectors)
    requires CousinsLinked(s, f, relatedTables, allCousins0, connectors0)
    requires r in relatedTables && cousins == Relatives(s, r, false, f.includeImplied)
    requires tables0 == relatedTables + (allCousins0 - {f.table}) + {f.table}
    requires connectors1 == AddAll(connectors0, CousinLinks(s, r, cousins - tables0, f.includeImplied))
    ensures CousinsLinked(s, f, relatedTables, allCousins0 + cousins, connectors1)
  {
    forall c | c in allCousins0 + cousins && c !in relatedTables && c != f.table
      ensures exists r' :: r' in relatedTables && c in Relatives(s, r', false, f.includeImplied)
                           && ConnectorsBetween(s, c, r', f.includeImplied) <= connectors1.Keys
    {
      if c in allCousins0 {
        var r' :| r' in relatedTables && c in Relatives(s, r', false, f.includeImplied)
                  && ConnectorsBetween(s, c, r', f.includeImplied) <= connectors0.Keys;
      } else {
        assert c in cousins - tables0;
        assert ConnectorsBetween(s, c, r, f.includeImplied) <= CousinLinks(s, r, cousins - tables0, f.includeImplied);
      }
    }
  }

  /** The cousin loop of two-degree mode, over every immediate relative. */
  method WriteAllCousins(s: Schema, f: Settings, relatedTables: set<TableId>,
                         tablesIn: set<TableId>, nodesIn: Nodes, skippedIn: set<Constraint>)
    returns (tablesWritten: set<TableId>, nodes: Nodes, allCousins: set<TableId>,
             allCousinConnectors: Connectors, skippedOut: set<Constraint>)
    requires f.table !in relatedTables
    requires tablesIn == relatedTables + {f.table} && nodesIn.Keys == relatedTables
    ensures allCousins == Cousins(s, relatedTables, f.includeImplied)
    ensures skippedOut == skippedIn + CousinSkips(s, relatedTables, f.includeImplied)
    ensures CousinsWritten(s, f, relatedTables, nodesIn, tablesWritten, nodes, allCousins, allCousinConnectors)
    ensures CousinsLinked(s, f, relatedTables, allCousins, allCousinConnectors)
  {
    tablesWritten, nodes, allCousins, allCousinConnectors, skippedOut := tablesIn, nodesIn, {}, map[], skippedIn;
    var rest := relatedTables;
    ghost var done: set<TableId> := {};
    while rest != {}
      invariant done + rest == relatedTables && done !! rest
      invariant CousinsSoFar(s, f, done, skippedIn, allCousins, skippedOut)
      invariant CousinsWritten(s, f, relatedTables, nodesIn, tablesWritten, nodes, allCousins, allCousinConnectors)
      invariant CousinsLinked(s, f, relatedTables, allCousins, allCousinConnectors)
      decreases rest
    {
      var relatedTable :| relatedTable in rest;
      ghost var nodes0, allCousins0, connectors0 := nodes, allCousins, allCousinConnectors;
      ghost var skipped0, tables0 := skippedOut, tablesWritten;
      var cousins;
      cousins, skippedOut := GetTableImmediateRelatives(s, relatedTable, false, f.includeImplied, skippedOut);
      CousinsSoFarStep(s, f, done, relatedTable, skippedIn, allCousins0, skipped0, cousins, skippedOut);
      tablesWritten, nodes, allCousinConnectors :=
        WriteCousinsOf(s, f, relatedTable, cousins, tablesWritten, nodes, allCousinConnectors);
      allCousins := allCousins + cousins;
      CousinsWrittenStep(s, f, relatedTables, relatedTable, nodesIn, nodes0, allCousins0, connectors0,
                         cousins, tablesWritten, nodes, allCousinConnectors);
      CousinsLinkedStep(s, f, relatedTables, relatedTable, allCousins0, connectors0, tables0, cousins, allCousinConnectors);
      rest, done := rest - {relatedTable}, done + {relatedTable};
    }
  }

  /** The cousin phase: nothing happens unless two-degree mode is on. */
  method WriteCousins(s: Schema, f: Settings, relatedTables: set<TableId>,
                      tablesIn: set<TableId>, nodesIn: Nodes, skippedIn: set<Constraint>)
    returns (tablesWritten: set<TableId>, nodes: Nodes, allCousins: set<TableId>,
             allCousinConnectors: Connectors, skippedOut: set<Constraint>)
    requires f.table !in relatedTables
    requires tablesIn == relatedTables + {f.table} && nodesIn.Keys == relatedTables
    ensures allCousins == if f.twoDegreesOfSeparation then Cousins(s, relatedTables, f.includeImplied) else {}
    ensures skippedOut == skippedIn + if f.twoDegreesOfSeparation then CousinSkips(s, relatedTables, f.includeImplied) else {}
    ensures nodes.Keys == relatedTables + (allCousins - {f.table}) && f.table !in nodes
    ensures tablesWritten == nodes.Keys + {f.table}
    ensures forall t | t in nodesIn :: nodes[t] == nodesIn[t]
    ensures forall t | t in nodes && t !in nodesIn :: nodes[t] == NewNode(MinimalConfig)
    ensures forall k | k in allCousinConnectors ::
              && allCousinConnectors[k] == NEW_PORTS && k in s.constraints && Admitted(k, f.includeImplied)
              && Glued(k, nodes.Keys) && CousinRouted(f.twoDegreesOfSeparation, allCousins, k)
    ensures CousinsLinked(s, f, relatedTables, allCousins, allCousinConnectors)
  {
    if f.twoDegreesOfSeparation {
      tablesWritten, nodes, allCousins, allCousinConnectors, skippedOut :=
        WriteAllCousins(s, f, relatedTables, tablesIn, nodesIn, skippedIn);
    } else {
      tablesWritten, nodes, allCousins, allCousinConnectors, skippedOut := tablesIn, nodesIn, {}, map[], skippedIn;
    }
  }

  /** The list of participants: the node map's tables, each once, in some order. */
  method ListOf(tables: set<TableId>) returns (ps: seq<TableId>)
    ensures Distinct(ps) && forall t :: t in ps <==> t in tables
  {
    ps := [];
    var rest := tables;
    while rest != {}
      invariant Distinct(ps) && rest <= tables
      invariant forall t :: t in ps <==> t in tables - rest
      decreases rest
    {
      var t :| t in rest;
      assert t !in ps;
      rest := rest - {t};
      ps := ps + [t];
    }
  }

  /**
   * Glues one pair: every connector the finder returns between `a` and `b`
   * goes to the cousins' connectors in two-degree mode when `a` or `b` is a
   * cousin, and to the focal table's connectors otherwise.
   */
  method GluePair(s: Schema, f: Settings, a: TableId, b: TableId, allCousins: set<TableId>,
                  connectorsIn: Connectors, cousinConnectorsIn: Connectors)
    returns (connectors: Connectors, allCousinConnectors: Connectors)
    ensures connectors == AddAll(connectorsIn,
              PlainPart(f.twoDegreesOfSeparation, allCousins, ConnectorsBetween(s, a, b, f.includeImplied)))
    ensures allCousinConnectors == AddAll(cousinConnectorsIn,
              CousinPart(f.twoDegreesOfSeparation, allCousins, ConnectorsBetween(s, a, b, f.includeImplied)))
  {
    connectors, allCousinConnectors := connectorsIn, cousinConnectorsIn;
    var found := ConnectorsBetween(s, a, b, f.includeImplied);
    ghost var seen: set<Constraint> := {};
    while found != {}
      invariant seen + found == ConnectorsBetween(s, a, b, f.includeImplied) && seen !! found
      invariant connectors == AddAll(connectorsIn, PlainPart(f.twoDegreesOfSeparation, allCousins, seen))
      invariant allCousinConnectors == AddAll(cousinConnectorsIn, CousinPart(f.twoDegreesOfSeparation, allCousins, seen))
      decreases found
    {
      var k :| k in found;
      found := found - {k};
      assert Crosses(k, a, b);
      if f.twoDegreesOfSeparation && (a in allCousins || b in allCousins) {
        assert CousinPart(f.twoDegreesOfSeparation, allCousins, seen + {k}) == CousinPart(f.twoDegreesOfSeparation, allCousins, seen) + {k};
        assert PlainPart(f.twoDegreesOfSeparation, allCousins, seen + {k}) == PlainPart(f.twoDegreesOfSeparation, allCousins, seen);
        AddAllTwice(cousinConnectorsIn, CousinPart(f.twoDegreesOfSeparation, allCousins, seen), {k});
        allCousinConnectors := AddAll(allCousinConnectors, {k});
      } else {
        assert PlainPart(f.twoDegreesOfSeparation, allCousins, seen + {k}) == PlainPart(f.twoDegreesOfSeparation, allCousins, seen) + {k};
        assert CousinPart(f.twoDegreesOfSeparation, allCousins, seen + {k}) == CousinPart(f.twoDegreesOfSeparation, allCousins, seen);
        AddAllTwice(connectorsIn, PlainPart(f.twoDegreesOfSeparation, allCousins, seen), {k});
        connectors := AddAll(connectors, {k});
      }
      seen := seen + {k};
    }
  }

  /** The glue pass's connectors after querying `queried`. */
  ghost predicate GlueProgress(s: Schema, f: Settings, allCousins: set<TableId>, connectorsIn: Connectors, cousinConnectorsIn: Connectors,
                        queried: seq<(TableId, TableId)>, connectors: Connectors, allCousinConnectors: Connectors)
  {
    && connectors == AddAll(connectorsIn, PlainPart(f.twoDegreesOfSeparation, allCousins, FoundAlong(s, queried, f.includeImplied)))
    && allCousinConnectors == AddAll(cousinConnectorsIn, CousinPart(f.twoDegreesOfSeparation, allCousins, FoundAlong(s, queried, f.includeImplied)))
  }

  /** Splitting a union by routing splits each part. */
  lemma PartsUnion(twoDegreesOfSeparation: bool, allCousins: set<TableId>, a: set<Constraint>, b: set<Constraint>)
    ensures PlainPart(twoDegreesOfSeparation, allCousins, a + b)
         == PlainPart(twoDegreesOfSeparation, allCousins, a) + PlainPart(twoDegreesOfSeparation, allCousins, b)
    ensures CousinPart(twoDegreesOfSeparation, allCousins, a + b)
         == CousinPart(twoDegreesOfSeparation, allCousins, a) + CousinPart(twoDegreesOfSeparation, allCousins, b)
  {
  }

  /** Gluing one more pair keeps the glue pass's connectors as described. */
  lemma GluedStep(s: Schema, f: Settings, allCousins: set<TableId>, connectorsIn: Connectors, cousinConnectorsIn: Connectors,
                  queried: seq<(TableId, TableId)>, connectors: Connectors, allCousinConnectors: Connectors,
                  a: TableId, b: TableId, connectors1: Connectors, allCousinConnectors1: Connectors)
    requires GlueProgress(s, f, allCousins, connectorsIn, cousinConnectorsIn, queried, connectors, allCousinConnectors)
    requires connectors1 == AddAll(connectors,
               PlainPart(f.twoDegreesOfSeparation, allCousins, ConnectorsBetween(s, a, b, f.includeImplied)))
    requires allCousinConnectors1 == AddAll(allCousinConnectors,
               CousinPart(f.twoDegreesOfSeparation, allCousins, ConnectorsBetween(s, a, b, f.includeImplied)))
    ensures GlueProgress(s, f, allCousins, connectorsIn, cousinConnectorsIn, queried + [(a, b)], connectors1, allCousinConnectors1)
  {
    var found0 := FoundAlong(s, queried, f.includeImplied);
    var found := ConnectorsBetween(s, a, b, f.includeImplied);
    FoundAlongAppend(s, queried, a, b, f.includeImplied);
    PartsUnion(f.twoDegreesOfSeparation, allCousins, found0, found);
    AddAllTwice(connectorsIn, PlainPart(f.twoDegreesOfSeparation, allCousins, found0),
                PlainPart(f.twoDegreesOfSeparation, allCousins, found));
    AddAllTwice(cousinConnectorsIn, CousinPart(f.twoDegreesOfSeparation, allCousins, found0),
                CousinPart(f.twoDegreesOfSeparation, allCousins, found));
  }

  /** The inner loop of the glue pass: pairs `a` with every participant of `bs`, in order. */
  method GlueWith(s: Schema, f: Settings, a: TableId, bs: seq<TableId>, allCousins: set<TableId>,
                  ghost connectorsIn: Connectors, ghost cousinConnectorsIn: Connectors, ghost queriedIn: seq<(TableId, TableId)>,
                  connectors0: Connectors, allCousinConnectors0: Connectors)
    returns (connectors: Connectors, allCousinConnectors: Connectors, ghost queried: seq<(TableId, TableId)>)
    requires GlueProgress(s, f, allCousins, connectorsIn, cousinConnectorsIn, queriedIn, connectors0, allCousinConnectors0)
    ensures queried == queriedIn + PairsWith(a, bs)
    ensures GlueProgress(s, f, allCousins, connectorsIn, cousinConnectorsIn, queried, connectors, allCousinConnectors)
  {
    connectors, allCousinConnectors, queried := connectors0, allCousinConnectors0, queriedIn;
    for j := 0 to |bs|
      invariant queried == queriedIn + PairsWith(a, bs[..j])
      invariant GlueProgress(s, f, allCousins, connectorsIn, cousinConnectorsIn, queried, connectors, allCousinConnectors)
    {
      var b := bs[j];
      ghost var connectorsBefore, allCousinConnectorsBefore := connectors, allCousinConnectors;
      connectors, allCousinConnectors := GluePair(s, f, a, b, allCousins, connectors, allCousinConnectors);
      GluedStep(s, f, allCousins, connectorsIn, cousinConnectorsIn, queried, connectorsBefore, allCousinConnectorsBefore,
                a, b, connectors, allCousinConnectors);
      assert bs[..j + 1] == bs[..j] + [b];
      queried := queried + [(a, b)];
    }
    assert bs[..|bs|] == bs;
  }

  lemma OrderedPairsStep(queried: seq<(TableId, TableId)>, rest: seq<TableId>)
    requires rest != []
    ensures queried + OrderedPairs(rest) == (queried + PairsWith(rest[0], rest[1..])) + OrderedPairs(rest[1..])
  {
  }

  /** The outer loop of the glue pass: takes each participant out of the list in turn. */
  method GlueAll(s: Schema, f: Settings, participants: seq<TableId>, allCousins: set<TableId>,
                 connectorsIn: Connectors, cousinConnectorsIn: Connectors)
    returns (connectors: Connectors, allCousinConnectors: Connectors, ghost queried: seq<(TableId, TableId)>)
    ensures queried == OrderedPairs(participants)
    ensures GlueProgress(s, f, allCousins, connectorsIn, cousinConnectorsIn, queried, connectors, allCousinConnectors)
  {
    connectors, allCousinConnectors, queried := connectorsIn, cousinConnectorsIn, [];
    var rest := participants;
    while rest != []
      invariant queried + OrderedPairs(rest) == OrderedPairs(participants)
      invariant GlueProgress(s, f, allCousins, connectorsIn, cousinConnectorsIn, queried, connectors, allCousinConnectors)
      decreases |rest|
    {
      var participantA := rest[0];
      OrderedPairsStep(queried, rest);
      connectors, allCousinConnectors, queried :=
        GlueWith(s, f, participantA, rest[1..], allCousins, connectorsIn, cousinConnectorsIn, queried,
                 connectors, allCousinConnectors);
      rest := rest[1..];
    }
  }

  /**
   * The glue pass: each participant is taken out of the list in turn and
   * paired with every participant still in it. It queries exactly the
   * ordered pairs `OrderedPairs(participants)`, which find every admitted
   * constraint joining two different participants.
   */
  method GlueParticipants(s: Schema, f: Settings, participants: seq<TableId>, ghost p: set<TableId>,
                          allCousins: set<TableId>, connectorsIn: Connectors, cousinConnectorsIn: Connectors)
    returns (connectors: Connectors, allCousinConnectors: Connectors, ghost queried: seq<(TableId, TableId)>)
    requires Distinct(participants) && forall t :: t in participants <==> t in p
    ensures queried == OrderedPairs(participants)
    ensures connectors == AddAll(connectorsIn, PlainPart(f.twoDegreesOfSeparation, allCousins,
              GlueSet(s, p, f.includeImplied)))
    ensures allCousinConnectors == AddAll(cousinConnectorsIn, CousinPart(f.twoDegreesOfSeparation, allCousins,
              GlueSet(s, p, f.includeImplied)))
  {
    connectors, allCousinConnectors, queried := GlueAll(s, f, participants, allCousins, connectorsIn, cousinConnectorsIn);
    GlueFindsGlueSet(s, participants, p, f.includeImplied);
  }

  /** Registers each excluded column on the node of its table, where that table has a node. */
  method MarkExcludedColumns(nodesIn: Nodes, excludedColumns: set<Column>) returns (nodes: Nodes)
    ensures nodes.Keys == nodesIn.Keys
    ensures forall t | t in nodesIn ::
              nodes[t] == nodesIn[t].(excludedColumns := nodesIn[t].excludedColumns + ColumnsOf(excludedColumns, t))
  {
    nodes := nodesIn;
    var rest := excludedColumns;
    ghost var done: set<Column> := {};
    while rest != {}
      invariant done + rest == excludedColumns && done !! rest
      invariant nodes.Keys == nodesIn.Keys
      invariant forall t | t in nodesIn ::
                  nodes[t] == nodesIn[t].(excludedColumns := nodesIn[t].excludedColumns + ColumnsOf(done, t))
      decreases rest
    {
      var column :| column in rest;
      forall t ensures ColumnsOf(done + {column}, t) == ColumnsOf(done, t) + (if column.table == t then {column} else {}) {
      }
      rest, done := rest - {column}, done + {column};
      if column.table in nodes {
        var node := nodes[column.table];
        nodes := nodes[column.table := node.(excludedColumns := node.excludedColumns + {column})];
      }
    }
  }

  /** Attaches each end of a cousins' connector to the title when its table is a cousin and not an immediate relative. */
  method ConnectCousinTitles(connectorsIn: Connectors, allCousins: set<TableId>, relatedTables: set<TableId>)
    returns (connectors: Connectors)
    ensures connectors.Keys == connectorsIn.Keys
    ensures forall k | k in connectorsIn ::
              connectors[k] == Ports(
                if CousinOnly(allCousins, relatedTables, k.parent.table) then TitlePort else connectorsIn[k].parent,
                if CousinOnly(allCousins, relatedTables, k.child.table) then TitlePort else connectorsIn[k].child)
  {
    connectors := connectorsIn;
    var rest := connectorsIn.Keys;
    while rest != {}
      invariant rest <= connectorsIn.Keys && connectors.Keys == connectorsIn.Keys
      invariant forall k | k in rest :: connectors[k] == connectorsIn[k]
      invariant forall k | k in connectorsIn && k !in rest ::
                  connectors[k] == Ports(
                    if CousinOnly(allCousins, relatedTables, k.parent.table) then TitlePort else connectorsIn[k].parent,
                    if CousinOnly(allCousins, relatedTables, k.child.table) then TitlePort else connectorsIn[k].child)
      decreases rest
    {
      var k :| k in rest;
      rest := rest - {k};
      if k.parent.table in allCousins && k.parent.table !in relatedTables {
        connectors := connectors[k := connectors[k].(parent := TitlePort)];
      }
      if k.child.table in allCousins && k.child.table !in relatedTables {
        connectors := connectors[k := connectors[k].(child := TitlePort)];
      }
    }
  }

  /** Sets the implied marker on the node of `t`, if `t` has a node. */
  method ShowImpliedOn(nodesIn: Nodes, t: TableId) returns (nodes: Nodes)
    ensures nodes.Keys == nodesIn.Keys
    ensures forall u | u in nodesIn :: nodes[u] == if u == t then nodesIn[u].(showImplied := true) else nodesIn[u]
  {
    nodes := nodesIn;
    if t in nodes {
      nodes := nodes[t := nodes[t].(showImplied := true)];
    }
  }

  lemma ImpliedTablesStep(done: set<Constraint>, k: Constraint)
    ensures ImpliedTables(done + {k}) == ImpliedTables(done) + (if k.implied then {k.parent.table, k.child.table} else {})
  {
  }

  /** Sets the implied marker on the node at each end of every implied connector, where that node exists. */
  method MarkImplied(connectors: Connectors, nodesIn: Nodes) returns (nodes: Nodes)
    ensures nodes.Keys == nodesIn.Keys
    ensures forall t | t in nodesIn ::
              nodes[t] == if t in ImpliedTables(connectors.Keys) then nodesIn[t].(showImplied := true) else nodesIn[t]
  {
    nodes := nodesIn;
    var rest := connectors.Keys;
    ghost var done: set<Constraint> := {};
    while rest != {}
      invariant done + rest == connectors.Keys && done !! rest
      invariant nodes.Keys == nodesIn.Keys
      invariant forall t | t in nodesIn ::
                  nodes[t] == if t in ImpliedTables(done) then nodesIn[t].(showImplied := true) else nodesIn[t]
      decreases rest
    {
      var k :| k in rest;
      ImpliedTablesStep(done, k);
      rest, done := rest - {k}, done + {k};
      if k.implied {
        nodes := ShowImpliedOn(nodes, k.parent.table);
        nodes := ShowImpliedOn(nodes, k.child.table);
      }
    }
  }

  /**
   * The connectors each phase leaves behind combine into the connectors of
   * the constraints `focal` on the focal table and `glue` between
   * participants, each with its ports.
   */
  lemma ConnectorsCombine(f: Settings, related: set<TableId>, allCousins: set<TableId>,
                          focal: set<Constraint>, glue: set<Constraint>,
                          focalConnectors: Connectors, cousinConnectors: Connectors,
                          glued: Connectors, cousinsGlued: Connectors, titled: Connectors)
    requires forall k | k in focal :: Touches(k, f.table)
    requires forall k | k in glue :: !Touches(k, f.table)
    requires focalConnectors == map k | k in focal :: FocalPorts(f.table, k)
    requires forall k | k in cousinConnectors ::
               cousinConnectors[k] == NEW_PORTS && k in CousinPart(f.twoDegreesOfSeparation, allCousins, glue)
    requires glued == AddAll(focalConnectors, PlainPart(f.twoDegreesOfSeparation, allCousins, glue))
    requires cousinsGlued == AddAll(cousinConnectors, CousinPart(f.twoDegreesOfSeparation, allCousins, glue))
    requires titled.Keys == cousinsGlued.Keys
    requires forall k | k in cousinsGlued ::
               titled[k] == Ports(
                 if CousinOnly(allCousins, related, k.parent.table) then TitlePort else cousinsGlued[k].parent,
                 if CousinOnly(allCousins, related, k.child.table) then TitlePort else cousinsGlued[k].child)
    ensures Merge(glued, titled) == map k | k in focal + glue :: PortsFor(f, related, allCousins, k)
  {
    var plain := PlainPart(f.twoDegreesOfSeparation, allCousins, glue);
    var routed := CousinPart(f.twoDegreesOfSeparation, allCousins, glue);
    var m := Merge(glued, titled);
    assert glue == plain + routed;
    assert m.Keys == focal + glue;
    forall k | k in m ensures m[k] == PortsFor(f, related, allCousins, k) {
      if k in focal {
      } else if k in plain {
        assert m[k] == NEW_PORTS;
      } else {
        assert k in routed && k !in glued;
        CousinPorts(f, related, allCousins, k, cousinsGlued[k], m[k]);
      }
    }
  }

  /** A cousins' connector, its ends switched to titles, has the ports the diagram gives it. */
  lemma CousinPorts(f: Settings, related: set<TableId>, allCousins: set<TableId>, k: Constraint, glued: Ports, titled: Ports)
    requires !Touches(k, f.table) && CousinRouted(f.twoDegreesOfSeparation, allCousins, k)
    requires glued == NEW_PORTS
    requires titled == Ports(
               if CousinOnly(allCousins, related, k.parent.table) then TitlePort else glued.parent,
               if CousinOnly(allCousins, related, k.child.table) then TitlePort else glued.child)
    ensures titled == PortsFor(f, related, allCousins, k)
  {
  }

  /** A connector the cousin phase keeps joins two participants and is one the glue pass routes to the cousins. */
  lemma RoutedInGlue(s: Schema, f: Settings, allCousins: set<TableId>, p: set<TableId>, k: Constraint)
    requires k in s.constraints && Admitted(k, f.includeImplied) && Glued(k, p)
    requires CousinRouted(f.twoDegreesOfSeparation, allCousins, k)
    ensures k in CousinPart(f.twoDegreesOfSeparation, allCousins, GlueSet(s, p, f.includeImplied))
  {
  }

  /** No constraint joining two participants touches the focal table, which is not one. */
  lemma GlueAvoidsFocal(s: Schema, p: set<TableId>, t: TableId, includeImplied: bool)
    requires t !in p
    ensures forall k | k in GlueSet(s, p, includeImplied) :: !Touches(k, t)
  {
  }

  /** The nodes each phase leaves behind combine into the diagram's nodes. */
  lemma NodesAssembled(f: Settings, related: set<TableId>, connectors: Connectors,
                       written: Nodes, excluded: Nodes, marked: Nodes)
    requires f.table !in written
    requires forall t | t in written ::
               written[t] == if t in related then NewNode(ColumnsConfig(false, false)) else NewNode(MinimalConfig)
    requires excluded.Keys == written.Keys
    requires forall t | t in written ::
               excluded[t] == written[t].(excludedColumns := written[t].excludedColumns + ColumnsOf(f.excludedColumns, t))
    requires marked.Keys == written.Keys + {f.table}
    requires forall t | t in marked ::
               marked[t] == var n := excluded[f.table := NewNode(ColumnsConfig(true, true))][t];
                            if t in ImpliedTables(connectors.Keys) then n.(showImplied := true) else n
    ensures marked == NodesFor(f, written.Keys, related, connectors)
  {
    var implied := ImpliedTables(connectors.Keys);
    var spec := NodesFor(f, written.Keys, related, connectors);
    forall t | t in marked ensures marked[t] == spec[t] {
      if t != f.table {
        NodeAssembled(f, related, implied, t, written[t], excluded[t], marked[t]);
      }
    }
    assert marked.Keys == spec.Keys;
  }

  /** One participant's node, after the exclusion and implied marking. */
  lemma NodeAssembled(f: Settings, related: set<TableId>, implied: set<TableId>, t: TableId,
                      written: Node, excluded: Node, marked: Node)
    requires t != f.table
    requires written == if t in related then NewNode(ColumnsConfig(false, false)) else NewNode(MinimalConfig)
    requires excluded == written.(excludedColumns := written.excludedColumns + ColumnsOf(f.excludedColumns, t))
    requires marked == if t in implied then excluded.(showImplied := true) else excluded
    ensures marked == Node(ConfigFor(f, related, t), t in implied, ColumnsOf(f.excludedColumns, t))
  {
  }

  /** The connectors each phase leaves behind are the diagram's connectors for these relatives and cousins. */
  lemma ConnectorsAssembled(s: Schema, f: Settings, related: set<TableId>, allCousins: set<TableId>,
                            focalConnectors: Connectors, cousinConnectors: Connectors,
                            glued: Connectors, cousinsGlued: Connectors, titled: Connectors)
    requires f.table !in related
    requires focalConnectors == map k | k in RelatedConnectors(s, f.table, f.includeImplied) :: FocalPorts(f.table, k)
    requires forall k | k in cousinConnectors ::
               cousinConnectors[k] == NEW_PORTS
               && k in CousinPart(f.twoDegreesOfSeparation, allCousins, GlueSet(s, related + (allCousins - {f.table}), f.includeImplied))
    requires glued == AddAll(focalConnectors, PlainPart(f.twoDegreesOfSeparation, allCousins,
               GlueSet(s, related + (allCousins - {f.table}), f.includeImplied)))
    requires cousinsGlued == AddAll(cousinConnectors, CousinPart(f.twoDegreesOfSeparation, allCousins,
               GlueSet(s, related + (allCousins - {f.table}), f.includeImplied)))
    requires titled.Keys == cousinsGlued.Keys
    requires forall k | k in cousinsGlued ::
               titled[k] == Ports(
                 if CousinOnly(allCousins, related, k.parent.table) then TitlePort else cousinsGlued[k].parent,
                 if CousinOnly(allCousins, related, k.child.table) then TitlePort else cousinsGlued[k].child)
    ensures Merge(glued, titled) == ConnectorsFor(s, f, related, allCousins)
  {
    var p := related + (allCousins - {f.table});
    GlueAvoidsFocal(s, p, f.table, f.includeImplied);
    ConnectorsCombine(f, related, allCousins, RelatedConnectors(s, f.table, f.includeImplied), GlueSet(s, p, f.includeImplied),
                      focalConnectors, cousinConnectors, glued, cousinsGlued, titled);
  }

  /** The focal table's connectors, after the details fix-up, have the focal ports. */
  lemma FocalConnectorsPorted(t: TableId, found: set<Constraint>, added: Connectors, connectors: Connectors)
    requires added == AddAll(map[], found)
    requires connectors.Keys == added.Keys
    requires forall k | k in added ::
               connectors[k] == if k.parent.table == t then added[k].(parent := DetailsPort) else added[k]
    ensures connectors == map k | k in found :: FocalPorts(t, k)
  {
  }

  /**
   * The first two phases: the immediate relatives with their connectors to
   * the focal table, then in two-degree mode the cousins. Every table with a
   * node so far is a participant; the focal table has none yet.
   */
  method WriteParticipants(s: Schema, f: Settings)
    returns (relatedTables: set<TableId>, nodes: Nodes, allCousins: set<TableId>,
             connectors: Connectors, allCousinConnectors: Connectors, skipped: set<Constraint>)
    ensures relatedTables == Related(s, f) && allCousins == AllCousins(s, f) && skipped == Skipped(s, f)
    ensures nodes.Keys == relatedTables + (allCousins - {f.table}) && f.table !in nodes
    ensures forall t | t in nodes ::
              nodes[t] == if t in relatedTables then NewNode(ColumnsConfig(false, false)) else NewNode(MinimalConfig)
    ensures connectors == map k | k in RelatedConnectors(s, f.table, f.includeImplied) :: FocalPorts(f.table, k)
    ensures forall k | k in allCousinConnectors ::
              allCousinConnectors[k] == NEW_PORTS
              && k in CousinPart(f.twoDegreesOfSeparation, allCousins,
                                 GlueSet(s, relatedTables + (allCousins - {f.table}), f.includeImplied))
    ensures CousinsLinked(s, f, relatedTables, allCousins, allCousinConnectors)
  {
    relatedTables, skipped := GetTableImmediateRelatives(s, f.table, true, f.includeImplied, {});

    // immediate relatives first
    var tablesWritten;
    tablesWritten, nodes, connectors := WriteImmediateRelatives(s, f, relatedTables);
    ghost var added := connectors;
    connectors := ConnectToFocalDetails(connectors, f.table);
    FocalConnectorsPorted(f.table, RelatedConnectors(s, f.table, f.includeImplied), added, connectors);

    // then the cousins
    tablesWritten, nodes, allCousins, allCousinConnectors, skipped :=
      WriteCousins(s, f, relatedTables, tablesWritten, nodes, skipped);
    forall k | k in allCousinConnectors
      ensures k in CousinPart(f.twoDegreesOfSeparation, allCousins,
                              GlueSet(s, relatedTables + (allCousins - {f.table}), f.includeImplied))
    {
      RoutedInGlue(s, f, allCousins, nodes.Keys, k);
    }
  }

  /** What the phases leave behind is the diagram `Build` describes. */
  lemma DiagramAssembled(s: Schema, f: Settings, relatedTables: set<TableId>, allCousins: set<TableId>,
                         written: Nodes, focalConnectors: Connectors, cousinConnectors: Connectors,
                         glued: Connectors, cousinsGlued: Connectors, excluded: Nodes, titled: Connectors,
                         connectors: Connectors, nodes: Nodes)
    requires relatedTables == Related(s, f) && allCousins == AllCousins(s, f)
    requires written.Keys == relatedTables + (allCousins - {f.table}) && f.table !in written
    requires forall t | t in written ::
               written[t] == if t in relatedTables then NewNode(ColumnsConfig(false, false)) else NewNode(MinimalConfig)
    requires focalConnectors == map k | k in RelatedConnectors(s, f.table, f.includeImplied) :: FocalPorts(f.table, k)
    requires forall k | k in cousinConnectors ::
               cousinConnectors[k] == NEW_PORTS
               && k in CousinPart(f.twoDegreesOfSeparation, allCousins, GlueSet(s, written.Keys, f.includeImplied))
    requires glued == AddAll(focalConnectors, PlainPart(f.twoDegreesOfSeparation, allCousins, GlueSet(s, written.Keys, f.includeImplied)))
    requires cousinsGlued == AddAll(cousinConnectors, CousinPart(f.twoDegreesOfSeparation, allCousins, GlueSet(s, written.Keys, f.includeImplied)))
    requires excluded.Keys == written.Keys
    requires forall t | t in written ::
               excluded[t] == written[t].(excludedColumns := written[t].excludedColumns + ColumnsOf(f.excludedColumns, t))
    requires titled.Keys == cousinsGlued.Keys
    requires forall k | k in cousinsGlued ::
               titled[k] == Ports(
                 if CousinOnly(allCousins, relatedTables, k.parent.table) then TitlePort else cousinsGlued[k].parent,
                 if CousinOnly(allCousins, relatedTables, k.child.table) then TitlePort else cousinsGlued[k].child)
    requires connectors == Merge(glued, titled)
    requires nodes.Keys == written.Keys + {f.table}
    requires forall t | t in nodes ::
               nodes[t] == var n := excluded[f.table := NewNode(ColumnsConfig(true, true))][t];
                           if t in ImpliedTables(connectors.Keys) then n.(showImplied := true) else n
    ensures connectors == DiagramConnectors(s, f)
    ensures nodes == DiagramNodes(s, f)
  {
    ConnectorsAssembled(s, f, relatedTables, allCousins, focalConnectors, cousinConnectors, glued, cousinsGlued, titled);
    NodesAssembled(f, relatedTables, connectors, written, excluded, nodes);
  }

  /**
   * Builds the relationship diagram of the focal table `f.table`: its
   * immediate relatives, in two-degree mode their relatives too, the glue
   * between every pair of them, the port and marker fix-ups, and last the
   * focal table's own node. Returns the emitted nodes and connectors and the
   * implied constraints skipped on the way.
   */
  method WriteTableRelationships(s: Schema, f: Settings) returns (d: Diagram)
    ensures d == Build(s, f)
  {
    var relatedTables, nodes, allCousins, connectors, allCousinConnectors, skippedImpliedConstraints :=
      WriteParticipants(s, f);
    ghost var written, focalConnectors, cousinConnectors := nodes, connectors, allCousinConnectors;

    // glue together every pair of participants
    var participants := ListOf(nodes.Keys);
    ghost var queried;
    connectors, allCousinConnectors, queried :=
      GlueParticipants(s, f, participants, nodes.Keys, allCousins, connectors, allCousinConnectors);
    ghost var glued, cousinsGlued := connectors, allCousinConnectors;

    nodes := MarkExcludedColumns(nodes, f.excludedColumns);
    ghost var excluded := nodes;
    allCousinConnectors := ConnectCousinTitles(allCousinConnectors, allCousins, relatedTables);

    // the focal table itself, last
    nodes := nodes[f.table := NewNode(ColumnsConfig(true, true))];
    connectors := Merge(connectors, allCousinConnectors);
    nodes := MarkImplied(connectors, nodes);
    DiagramAssembled(s, f, relatedTables, allCousins, written, focalConnectors, cousinConnectors,
                     glued, cousinsGlued, excluded, allCousinConnectors, connectors, nodes);

    d := Diagram(nodes, connectors, skippedImpliedConstraints);
  }
}
