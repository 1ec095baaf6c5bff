# SchemaSpy one-table relationship diagram, modelled in Dafny

SchemaSpy draws a relationship diagram for each table of a database schema.
`DotTableFormatter` decides what goes into the diagram of one *focal* table:

- its *immediate relatives*, which are the tables one foreign key away;
- in two-degree mode, the *cousins*, which are the relatives of those relatives;
- a *glue* pass that draws every remaining foreign key between two tables already in the diagram;
- where each end of a connector attaches: a column, the focal table's details, or a cousin's title;
- the implied-key marker and the excluded columns of each node;
- the set of implied foreign keys that were passed over.

This project models that builder and proves what it produces.

Files and modules:

- `schema.dfy` (`SchemaModel`): tables are ids. A column has an owner table and the flags `excluded` and `allExcluded`. A foreign-key constraint joins a parent column to a child column and may be `implied`.
- `connector_finder.dfy` (`ConnectorFinder`): the connector finder, reduced to the constraints it is asked for.
  - The one-table form returns the admitted constraints touching a table.
  - The two-table form returns those crossing between two tables.
  - A constraint is admitted when it is declared, or when implied constraints are included.
- `dot_elements.dfy` (`DotElements`): the elements being built.
  - A connector set is a map from constraint to the ports of its two ends. Adding to it keeps an entry already present, as a sorted set does.
  - A node holds its configuration, its implied marker and its excluded columns.
- `table_relatives.dfy` (`TableRelatives`): `getTableImmediateRelatives` as a method with the loops of the Java method. It is proved equal to the closed form `Relatives` / `SkippedImplied`, and that closed form is characterised.
- `diagram_spec.dfy` (`DiagramSpec`): `Build`, the diagram described without any iteration order. It also holds the pair enumeration of the glue pass and what it reaches.
- `dot_table_formatter.dfy` (`DotTableFormatter`): `writeTableRelationships` phase by phase, as methods with the loops of the Java methods. Hash-set iteration is an arbitrary choice (`:|`). The whole builder is proved to return `Build`, whatever order its sets are visited in.
- `diagram_properties.dfy` (`DiagramProperties`): what the diagram is promised to be. This covers nodes, connectors, anchor rules, implied bookkeeping, one-degree mode and endpoints.
- `orders_scenario.dfy` (`OrdersScenario`): the worked example. `Orders` has a declared key to `Customers` and an implied key to `Regions`.

Anchor behaviour of the code worth noting (the fix-ups commented at `DotTableFormatter.java:113-114` and `:161-162`):

- The focal fix-up at lines 115-118 switches only the *parent* end of a connector whose parent table is the focal table. The child end and other directions are unchanged.
- The title fix-up at lines 163-168 applies only to the cousins' connectors. A connector on the focal table keeps a column port at its other end, even when that end is a cousin-only table.
  - `AnchorRules` states this exactly.
  - In a well-formed schema this happens only when one of the constraint's two columns is all-excluded. Relative discovery does not follow such a constraint, but the finder still returns it.

## Model

| member | source | states |
|---|---|---|
| TableRelatives.GetTableImmediateRelatives | src/main/java/org/schemaspy/output/dot/schemaspy/DotTableFormatter.java:196-236 | The returned tables are `Relatives` of the table, which never include the table itself. The accumulator grows by exactly `SkippedImplied`, so it only grows, and it is unchanged when implied constraints are included. |
| TableRelatives.FollowChildren | src/main/java/org/schemaspy/output/dot/schemaspy/DotTableFormatter.java:204-214 | Records every surviving child column whose constraint is admitted, and accumulates every surviving child's constraint that is not admitted. |
| TableRelatives.FollowParents | src/main/java/org/schemaspy/output/dot/schemaspy/DotTableFormatter.java:216-226 | The same for the parent columns. |
| TableRelatives.TablesOf | src/main/java/org/schemaspy/output/dot/schemaspy/DotTableFormatter.java:229-231 | The result is exactly the set of the columns' tables. |
| TableRelatives.RelativesExactly | src/main/java/org/schemaspy/output/dot/schemaspy/DotTableFormatter.java:199-235 | Both directions: a table is a relative iff it is another table reached through an admitted constraint from the table whose two columns both survive the exclusion test. |
| TableRelatives.SkippedExactly | src/main/java/org/schemaspy/output/dot/schemaspy/DotTableFormatter.java:199-226 | Both directions: a constraint is skipped iff it is followed from the table (both columns surviving) and not admitted. |
| TableRelatives.ImpliedSkipsOnlyImplied | src/main/java/org/schemaspy/output/dot/schemaspy/DotTableFormatter.java:209-225 | With implied constraints included nothing is skipped. Every skipped constraint is an implied constraint of the schema. |
| TableRelatives.FailingColumnContributesNothing | src/main/java/org/schemaspy/output/dot/schemaspy/DotTableFormatter.java:200-219 | A column failing the exclusion test, on the near or the far side, contributes neither a relative nor a skipped constraint. Dropping its constraints changes neither result. |
| TableRelatives.IncludingExcludedOnlyAdds | src/main/java/org/schemaspy/output/dot/schemaspy/DotTableFormatter.java:200-219 | Following merely excluded columns only adds relatives and skipped constraints; it never removes any. |
| TableRelatives.SkippedRecordsNoRelative | src/main/java/org/schemaspy/output/dot/schemaspy/DotTableFormatter.java:209-213 | A skipped constraint records no relative: removing it from the schema leaves the relatives unchanged. |
| ConnectorFinder.BetweenWithinRelated | src/main/java/org/schemaspy/output/dot/schemaspy/DotTableFormatter.java:99-110 | What the two-table finder returns for a relative and the focal table is already among the focal table's own connectors. |
| DotElements.AddAll | src/main/java/org/schemaspy/output/dot/schemaspy/DotTableFormatter.java:110 | Adding keeps every existing connector unchanged and gives each new constraint fresh column ports. |
| DotElements.Merge | src/main/java/org/schemaspy/output/dot/schemaspy/DotTableFormatter.java:173 | The merge holds both key sets. Entries of the first set win; the others come from the second. |
| DotElements.AddAllTwice | src/main/java/org/schemaspy/output/dot/schemaspy/DotTableFormatter.java:110 | Adding in two steps equals adding the union once. |
| DotTableFormatter.WriteImmediateRelatives | src/main/java/org/schemaspy/output/dot/schemaspy/DotTableFormatter.java:99-111 | One node with configuration (false, false) per relative; the focal table and every relative are written. The connectors are exactly the focal table's, since the loop's additions are already present. |
| DotTableFormatter.ConnectToFocalDetails | src/main/java/org/schemaspy/output/dot/schemaspy/DotTableFormatter.java:115-118 | Every connector whose parent is the focal table gets its parent end on the details. Every other connector is unchanged. |
| DotTableFormatter.WriteCousinsOf | src/main/java/org/schemaspy/output/dot/schemaspy/DotTableFormatter.java:128-134 | Adds a minimal node exactly for the cousins not yet written. For exactly those cousins it adds the connectors the finder returns between cousin and relative (`CousinLinks`); earlier nodes and connectors are kept. Each new connector is admitted and joins the relative to a newly written cousin. |
| DotTableFormatter.WriteAllCousins | src/main/java/org/schemaspy/output/dot/schemaspy/DotTableFormatter.java:125-137 | The cousins and skipped constraints gathered are those of every relative. The relatives' nodes are kept, and the node set is relatives plus cousins less the focal table. Every cousin that is not a relative has all its connectors to some relative that reaches it (`CousinsLinked`); every cousins' connector is admitted, joins two written tables and touches a cousin. |
| DotTableFormatter.WriteCousins | src/main/java/org/schemaspy/output/dot/schemaspy/DotTableFormatter.java:120-138 | The cousin phase does nothing when two-degree mode is off. Otherwise the cousins' connectors are admitted, join two written tables and touch a cousin. Every cousin-only table has all its connectors to some relative that reaches it. |
| DotTableFormatter.ListOf | src/main/java/org/schemaspy/output/dot/schemaspy/DotTableFormatter.java:142 | The participant list holds each node's table exactly once. |
| DotTableFormatter.GluePair | src/main/java/org/schemaspy/output/dot/schemaspy/DotTableFormatter.java:149-155 | Every connector found between the pair goes to the cousins' connectors iff two-degree mode is on and either table is a cousin; otherwise it goes to the focal connectors. |
| DotTableFormatter.GlueWith | src/main/java/org/schemaspy/output/dot/schemaspy/DotTableFormatter.java:148-156 | Pairs the removed participant with each remaining one, in list order. |
| DotTableFormatter.GlueAll | src/main/java/org/schemaspy/output/dot/schemaspy/DotTableFormatter.java:143-157 | The pairs queried are exactly `OrderedPairs` of the list, and each connector found is routed as `GluePair` states. |
| DotTableFormatter.GlueParticipants | src/main/java/org/schemaspy/output/dot/schemaspy/DotTableFormatter.java:142-157 | The glue pass adds exactly the admitted constraints joining two different participants, each routed as `GluePair` states. |
| DiagramSpec.OrderedPairsProper | src/main/java/org/schemaspy/output/dot/schemaspy/DotTableFormatter.java:143-148 | No queried pair joins a table to itself, because the outer participant is removed before the inner loop. Both members of a pair are participants. |
| DiagramSpec.OrderedPairsUnique | src/main/java/org/schemaspy/output/dot/schemaspy/DotTableFormatter.java:143-148 | No pair is queried twice, in either order. |
| DiagramSpec.OrderedPairsComplete | src/main/java/org/schemaspy/output/dot/schemaspy/DotTableFormatter.java:143-148 | Every two different participants are queried, in one order or the other. |
| DiagramSpec.GlueFindsGlueSet | src/main/java/org/schemaspy/output/dot/schemaspy/DotTableFormatter.java:142-157 | What the queried pairs find is exactly the admitted constraints joining two different participants. |
| DotTableFormatter.MarkExcludedColumns | src/main/java/org/schemaspy/output/dot/schemaspy/DotTableFormatter.java:238-245 | Each node gains exactly the excluded columns of its table. No node is added, and columns of tables without a node change nothing. |
| DotTableFormatter.ConnectCousinTitles | src/main/java/org/schemaspy/output/dot/schemaspy/DotTableFormatter.java:163-168 | Each end of a cousins' connector is switched to the title iff its table is a cousin and not a relative. The two ends are decided independently and the keys are unchanged. |
| DotTableFormatter.ShowImpliedOn | src/main/java/org/schemaspy/output/dot/schemaspy/DotTableFormatter.java:176-181 | Sets the implied marker on the table's node if it has one; nothing else changes. |
| DotTableFormatter.MarkImplied | src/main/java/org/schemaspy/output/dot/schemaspy/DotTableFormatter.java:174-182 | A node gets the implied marker iff it is an end of an implied connector. Tables without a node cause no change. |
| DotTableFormatter.WriteParticipants | src/main/java/org/schemaspy/output/dot/schemaspy/DotTableFormatter.java:97-138 | After both discovery phases: the relatives, cousins and skipped constraints are the closed-form ones. The nodes are the participants, and the focal table has none yet. The focal connectors carry the focal ports. The cousins' connectors lie within the glue pass's cousin part, and include, for each cousin-only table, all its connectors to some relative that reaches it. |
| DotTableFormatter.WriteTableRelationships | src/main/java/org/schemaspy/output/dot/schemaspy/DotTableFormatter.java:81-194 | The nodes, connectors and skipped constraints are exactly `Build`, whatever order the sets are visited in. |
| DiagramProperties.FocalNotParticipant | src/main/java/org/schemaspy/output/dot/schemaspy/DotTableFormatter.java:229-235 | The focal table is never its own relative, nor a participant of the glue pass. |
| DiagramProperties.NodesOfDiagram | src/main/java/org/schemaspy/output/dot/schemaspy/DotTableFormatter.java:100-171 | Both directions: a table has a node iff it is the focal table, a relative or a cousin. The focal node has (true, true), put last so it overrides; a relative has (false, false); a cousin-only table is minimal. |
| DiagramProperties.ExcludedColumnsOfNode | src/main/java/org/schemaspy/output/dot/schemaspy/DotTableFormatter.java:159-171 | A node's excluded columns are the excluded columns of its table. The focal node, created afterwards, has none. |
| DiagramProperties.ConnectorsOfDiagram | src/main/java/org/schemaspy/output/dot/schemaspy/DotTableFormatter.java:99-157 | Both directions: a constraint is drawn iff it is admitted and either touches the focal table or joins two different participants. |
| DiagramProperties.SelfLoopsOnlyOnFocal | src/main/java/org/schemaspy/output/dot/schemaspy/DotTableFormatter.java:142-157 | A constraint from a table to itself is drawn only when that table is the focal table. |
| DiagramProperties.AnchorRules | src/main/java/org/schemaspy/output/dot/schemaspy/DotTableFormatter.java:113-168 | Both directions: the parent end is on the details iff the parent is the focal table, and a child end never is. An end is on the title iff the connector avoids the focal table and that end is cousin-only. |
| DiagramProperties.ShowImpliedExactly | src/main/java/org/schemaspy/output/dot/schemaspy/DotTableFormatter.java:173-182 | Both directions: a node shows the implied marker iff a drawn implied constraint touches its table. |
| DiagramProperties.ImpliedAccounting | src/main/java/org/schemaspy/output/dot/schemaspy/DotTableFormatter.java:97-126 | With implied constraints included nothing is skipped. Without them no implied constraint is drawn. Every skipped constraint is an implied constraint of the schema. |
| DiagramProperties.OneDegreeDiagram | src/main/java/org/schemaspy/output/dot/schemaspy/DotTableFormatter.java:120-157 | With two-degree mode off: the nodes are exactly the relatives plus the focal table, and no end is on a title. The skipped constraints are those of the focal table's discovery. |
| DiagramProperties.EndpointsHaveNodes | src/main/java/org/schemaspy/output/dot/schemaspy/DotTableFormatter.java:99-171 | When the schema is well formed and no column is all-excluded, both ends of every drawn constraint have a node. |
| OrdersScenario.OrdersRelatives | src/main/java/org/schemaspy/output/dot/schemaspy/DotTableFormatter.java:196-236 | The relatives of `Orders` are `Customers`, plus `Regions` when implied keys are included. |
| OrdersScenario.DeclaredKeysNodes | src/main/java/org/schemaspy/output/dot/schemaspy/DotTableFormatter.java:97-171 | Without implied keys the nodes are `Orders` and `Customers`. |
| OrdersScenario.DeclaredKeysConnectors | src/main/java/org/schemaspy/output/dot/schemaspy/DotTableFormatter.java:99-157 | Without implied keys the only connector is the declared key. |
| OrdersScenario.DeclaredKeysSkipped | src/main/java/org/schemaspy/output/dot/schemaspy/DotTableFormatter.java:209-225 | Without implied keys the implied key is reported skipped. |
| OrdersScenario.ImpliedKeysNodes | src/main/java/org/schemaspy/output/dot/schemaspy/DotTableFormatter.java:97-171 | With implied keys all three tables have nodes. |
| OrdersScenario.ImpliedKeysConnectors | src/main/java/org/schemaspy/output/dot/schemaspy/DotTableFormatter.java:99-157 | With implied keys both keys are drawn. |
| OrdersScenario.ImpliedKeysSkipped | src/main/java/org/schemaspy/output/dot/schemaspy/DotTableFormatter.java:209-225 | With implied keys nothing is skipped. |

## Left out

- Output is not modelled, because it is I/O and rendering syntax. This covers:
  - the header (line 95);
  - the `println` of every connector and node, and the closing brace (lines 183-191);
  - the textual forms of `DotConnector` and `DotNode`.
- The diagram-name decorators `Degree`, `Implied` and `EmptyName` (lines 87-93) are not modelled; they only produce the title text.
- `WriteStats` is not modelled. `stats.wroteTable` (line 188) is a side effect outside the diagram, and the excluded columns of `stats.getExcludedColumns()` are an input set.
- The finder's internals are not modelled, because `DotConnectorFinder` is not part of this model. It is reduced to "admitted constraints touching one table / crossing two tables". Its third boolean argument, and any column exclusion it might apply, are ignored. Under this reduction the additions at line 110 add nothing new (`BetweenWithinRelated`). `SelfLoopsOnlyOnFocal` and the all-excluded premise of `EndpointsHaveNodes` also rest on this reduction rather than on code shown here.
- `DotNode`, `DotNodeConfig` and `DotConfig` are not modelled beyond the node's configuration, implied marker and excluded columns. The `DotNode` constructor's second argument is always `false` here, so it is not modelled either.
- Emission order is not claimed. `TreeSet`/`TreeMap` ordering depends on `compareTo` implementations that are not part of this model. Connectors are a map keyed by constraint, which assumes a connector is identified by its constraint. Nodes are a map keyed by table.
- Nodes and connectors are owned values updated in the maps, not shared objects, so aliasing between them is not modelled.
- `DotConnector.pointsTo(table)` is taken to mean "the parent end is on that table", matching the parent-details switch it guards.
- Schema loading and the heuristics that mark a constraint implied are external; `implied` is a flag.
