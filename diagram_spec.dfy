/**
 * What building the diagram of one table produces, stated without any
 * iteration order: which tables get a node and with which configuration,
 * which constraints get a connector and with which ports, and which implied
 * constraints are reported as skipped. The builder in DotTableFormatter is
 * proved to produce exactly this, whatever order its sets are visited in.
 */
module DiagramSpec {
  import opened SchemaModel
  import opened ConnectorFinder
  import opened DotElements
  import opened TableRelatives

  /** The settings a formatter is built with: the focal table, the two switches, and the columns reported as excluded. */
  datatype Settings = Settings(table: TableId, twoDegreesOfSeparation: bool, includeImplied: bool, excludedColumns: set<Column>)

  /** What one build emits (its nodes and connectors) and returns (the skipped implied constraints). */
  datatype Diagram = Diagram(nodes: Nodes, connectors: Connectors, skipped: set<Constraint>)

  /** The relatives, excluded columns not followed, of the tables in `related`. */
  ghost function Cousins(s: Schema, related: set<TableId>, includeImplied: bool): set<TableId>
  {
    set r, x | r in related && x in Relatives(s, r, false, includeImplied) :: x
  }

  /** The implied constraints skipped while finding the cousins of `related`. */
  ghost function CousinSkips(s: Schema, related: set<TableId>, includeImplied: bool): set<Constraint>
  {
    set r, k | r in related && k in SkippedImplied(s, r, false, includeImplied) :: k
  }

  /** The focal table's immediate relatives, excluded columns followed. */
  ghost function Related(s: Schema, f: Settings): set<TableId>
  {
    Relatives(s, f.table, true, f.includeImplied)
  }

  /** The cousins, in two-degree mode only. They may include relatives and the focal table itself. */
  ghost function AllCousins(s: Schema, f: Settings): set<TableId>
  {
    if f.twoDegreesOfSeparation then Cousins(s, Related(s, f), f.includeImplied) else {}
  }

  /** The tables with a node before the focal table's own is added. */
  ghost function Participants(s: Schema, f: Settings): set<TableId>
  {
    Related(s, f) + (AllCousins(s, f) - {f.table})
  }

  /** Every implied constraint skipped during the build. */
  ghost function Skipped(s: Schema, f: Settings): set<Constraint>
  {
    SkippedImplied(s, f.table, true, f.includeImplied)
      + (if f.twoDegreesOfSeparation then CousinSkips(s, Related(s, f), f.includeImplied) else {})
  }

  /** `k` joins two different tables of `p`. */
  predicate Glued(k: Constraint, p: set<TableId>)
  {
    k.parent.table in p && k.child.table in p && k.parent.table != k.child.table
  }

  /** The admitted constraints joining two different tables of `p`. */
  ghost function GlueSet(s: Schema, p: set<TableId>, includeImplied: bool): set<Constraint>
  {
    set k | k in s.constraints && Admitted(k, includeImplied) && Glued(k, p)
  }

  /** A glued connector is kept with the cousins' connectors: two-degree mode, and one of its tables is a cousin. */
  predicate CousinRouted(twoDegreesOfSeparation: bool, allCousins: set<TableId>, k: Constraint)
  {
    twoDegreesOfSeparation && (k.parent.table in allCousins || k.child.table in allCousins)
  }

  /** A cousin that is not also an immediate relative: it is drawn without columns. */
  predicate CousinOnly(allCousins: set<TableId>, related: set<TableId>, t: TableId)
  {
    t in allCousins && t !in related
  }

  function TitleIf(b: bool): Port
  {
    if b then TitlePort else ColumnPort
  }

  /** The ports of a connector on the focal table `t`: its details when `t` is the parent end. */
  function FocalPorts(t: TableId, k: Constraint): Ports
  {
    Ports(if k.parent.table == t then DetailsPort else ColumnPort, ColumnPort)
  }

  /**
   * The ports of the connector drawn for `k`, given the focal table's
   * relatives and the cousins: column ports, except the focal table's
   * parent ends (details) and, among the connectors kept with the cousins',
   * the ends on cousins that are not relatives (title).
   */
  function PortsFor(f: Settings, related: set<TableId>, allCousins: set<TableId>, k: Constraint): Ports
  {
    if Touches(k, f.table) then
      FocalPorts(f.table, k)
    else if CousinRouted(f.twoDegreesOfSeparation, allCousins, k) then
      Ports(TitleIf(CousinOnly(allCousins, related, k.parent.table)),
            TitleIf(CousinOnly(allCousins, related, k.child.table)))
    else
      NEW_PORTS
  }

  /** The connectors: those on the focal table, and those joining two participants. */
  ghost function ConnectorsFor(s: Schema, f: Settings, related: set<TableId>, allCousins: set<TableId>): Connectors
  {
    map k | k in RelatedConnectors(s, f.table, f.includeImplied) + GlueSet(s, related + (allCousins - {f.table}), f.includeImplied)
      :: PortsFor(f, related, allCousins, k)
  }

  /** The tables at either end of an implied constraint of `ks`. */
  function ImpliedTables(ks: set<Constraint>): set<TableId>
  {
    (set k | k in ks && k.implied :: k.parent.table) + (set k | k in ks && k.implied :: k.child.table)
  }

  /** The columns of `cols` that belong to table `t`. */
  function ColumnsOf(cols: set<Column>, t: TableId): set<Column>
  {
    set c | c in cols && c.table == t
  }

  /** Full detail for the focal table, columns for relatives, the minimal configuration for cousins. */
  function ConfigFor(f: Settings, related: set<TableId>, t: TableId): NodeConfig
  {
    if t == f.table then ColumnsConfig(true, true)
    else if t in related then ColumnsConfig(false, false)
    else MinimalConfig
  }

  /** The nodes: one per participant and one for the focal table. */
  function NodesFor(f: Settings, participants: set<TableId>, related: set<TableId>, connectors: Connectors): Nodes
  {
    map t | t in participants + {f.table} ::
      Node(ConfigFor(f, related, t),
           t in ImpliedTables(connectors.Keys),
           if t == f.table then {} else ColumnsOf(f.excludedColumns, t))
  }

  ghost function DiagramConnectors(s: Schema, f: Settings): Connectors
  {
    ConnectorsFor(s, f, Related(s, f), AllCousins(s, f))
  }

  ghost function DiagramNodes(s: Schema, f: Settings): Nodes
  {
    NodesFor(f, Participants(s, f), Related(s, f), DiagramConnectors(s, f))
  }

  /** The diagram of the focal table. */
  ghost function Build(s: Schema, f: Settings): Diagram
  {
    Diagram(DiagramNodes(s, f), DiagramConnectors(s, f), Skipped(s, f))
  }

  /** The constraints of `ks` the glue pass keeps with the focal table's own connectors. */
  function PlainPart(twoDegreesOfSeparation: bool, allCousins: set<TableId>, ks: set<Constraint>): set<Constraint>
  {
    set k | k in ks && !CousinRouted(twoDegreesOfSeparation, allCousins, k)
  }

  /** The constraints of `ks` the glue pass keeps with the cousins' connectors. */
  function CousinPart(twoDegreesOfSeparation: bool, allCousins: set<TableId>, ks: set<Constraint>): set<Constraint>
  {
    set k | k in ks && CousinRouted(twoDegreesOfSeparation, allCousins, k)
  }

  predicate Distinct(ps: seq<TableId>)
  {
    forall i, j | 0 <= i < j < |ps| :: ps[i] != ps[j]
  }

  /** The pairs queried while `a` is paired with each of `bs` in turn. */
  function PairsWith(a: TableId, bs: seq<TableId>): (r: seq<(TableId, TableId)>)
    ensures |r| == |bs| && forall j | 0 <= j < |bs| :: r[j] == (a, bs[j])
  {
    seq(|bs|, j requires 0 <= j < |bs| => (a, bs[j]))
  }

  /**
   * The pairs the glue pass queries, in order: the first participant is
   * taken out of the list and paired with every one still in it, then the
   * rest of the list is treated the same way.
   */
  function OrderedPairs(ps: seq<TableId>): seq<(TableId, TableId)>
  {
    if ps == [] then [] else PairsWith(ps[0], ps[1..]) + OrderedPairs(ps[1..])
  }

  /** The connectors found by querying each pair of `pairs`. */
  ghost function FoundAlong(s: Schema, pairs: seq<(TableId, TableId)>, includeImplied: bool): set<Constraint>
  {
    set p, k | p in pairs && k in ConnectorsBetween(s, p.0, p.1, includeImplied) :: k
  }

  lemma DistinctTail(ps: seq<TableId>)
    requires Distinct(ps) && ps != []
    ensures Distinct(ps[1..]) && ps[0] !in ps[1..]
  {
    var t := ps[1..];
    forall i, j | 0 <= i < j < |t| ensures t[i] != t[j] { assert t[i] == ps[i + 1] && t[j] == ps[j + 1]; }
    forall j | 0 <= j < |t| ensures t[j] != ps[0] { assert t[j] == ps[j + 1]; }
  }

  /** Every queried pair is two different participants. */
  lemma {:induction false} OrderedPairsProper(ps: seq<TableId>)
    requires Distinct(ps)
    ensures forall q | q in OrderedPairs(ps) :: q.0 != q.1 && q.0 in ps && q.1 in ps
  {
    if ps != [] {
      var h, t := ps[0], ps[1..];
      DistinctTail(ps);
      OrderedPairsProper(t);
      forall q | q in OrderedPairs(ps) ensures q.0 != q.1 && q.0 in ps && q.1 in ps {
        if q in PairsWith(h, t) {
          var j :| 0 <= j < |t| && PairsWith(h, t)[j] == q;
        } else {
          assert q in OrderedPairs(t);
        }
      }
    }
  }

  /** No two queries are of the same unordered pair. */
  lemma {:induction false} OrderedPairsUnique(ps: seq<TableId>)
    requires Distinct(ps)
    ensures forall i, j | 0 <= i < j < |OrderedPairs(ps)| ::
              OrderedPairs(ps)[i] != OrderedPairs(ps)[j] && OrderedPairs(ps)[i] != (OrderedPairs(ps)[j].1, OrderedPairs(ps)[j].0)
  {
    if ps != [] {
      var h, t := ps[0], ps[1..];
      DistinctTail(ps);
      OrderedPairsUnique(t);
      OrderedPairsProper(t);
      var head, tail := PairsWith(h, t), OrderedPairs(t);
      var all := OrderedPairs(ps);
      assert all == head + tail;
      forall i, j | 0 <= i < j < |all|
        ensures all[i] != all[j] && all[i] != (all[j].1, all[j].0)
      {
        if j < |head| {
          assert all[i] == (h, t[i]) && all[j] == (h, t[j]);
        } else if i < |head| {
          assert all[i] == (h, t[i]);
          assert all[j] == tail[j - |head|] && all[j] in tail;
        } else {
          assert all[i] == tail[i - |head|] && all[j] == tail[j - |head|];
        }
      }
    }
  }

  /** Every unordered pair of different participants is queried. */
  lemma {:induction false} OrderedPairsComplete(ps: seq<TableId>)
    ensures forall a, b | a in ps && b in ps && a != b :: (a, b) in OrderedPairs(ps) || (b, a) in OrderedPairs(ps)
  {
    if ps != [] {
      var h, t := ps[0], ps[1..];
      OrderedPairsComplete(t);
      var head := PairsWith(h, t);
      assert OrderedPairs(ps) == head + OrderedPairs(t);
      forall a, b | a in ps && b in ps && a != b
        ensures (a, b) in OrderedPairs(ps) || (b, a) in OrderedPairs(ps)
      {
        if a == h {
          var j :| 0 <= j < |t| && t[j] == b;
          assert head[j] == (a, b);
        } else if b == h {
          var j :| 0 <= j < |t| && t[j] == a;
          assert head[j] == (b, a);
        } else {
          assert a in t && b in t;
        }
      }
    }
  }

  /** Querying one more pair adds what that query returns. */
  lemma FoundAlongAppend(s: Schema, pairs: seq<(TableId, TableId)>, a: TableId, b: TableId, includeImplied: bool)
    ensures FoundAlong(s, pairs + [(a, b)], includeImplied)
         == FoundAlong(s, pairs, includeImplied) + ConnectorsBetween(s, a, b, includeImplied)
  {
    var left, right := FoundAlong(s, pairs + [(a, b)], includeImplied), FoundAlong(s, pairs, includeImplied) + ConnectorsBetween(s, a, b, includeImplied);
    forall k | k in right ensures k in left {
      if k in ConnectorsBetween(s, a, b, includeImplied) {
        assert (a, b) in pairs + [(a, b)];
      } else {
        var p :| p in pairs && k in ConnectorsBetween(s, p.0, p.1, includeImplied);
        assert p in pairs + [(a, b)];
      }
    }
  }

  /** What the glue pass finds over distinct participants is exactly the admitted constraints joining two of them. */
  lemma {:induction false} GlueFindsGlueSet(s: Schema, ps: seq<TableId>, p: set<TableId>, includeImplied: bool)
    requires Distinct(ps) && forall t :: t in ps <==> t in p
    ensures FoundAlong(s, OrderedPairs(ps), includeImplied) == GlueSet(s, p, includeImplied)
  {
    var pairs := OrderedPairs(ps);
    OrderedPairsProper(ps);
    OrderedPairsComplete(ps);
    forall k | k in FoundAlong(s, pairs, includeImplied)
      ensures k in GlueSet(s, p, includeImplied)
    {
      var q :| q in pairs && k in ConnectorsBetween(s, q.0, q.1, includeImplied);
      assert q.0 != q.1 && q.0 in ps && q.1 in ps;
    }
    forall k | k in GlueSet(s, p, includeImplied)
      ensures k in FoundAlong(s, pairs, includeImplied)
    {
      var a, b := k.parent.table, k.child.table;
      assert a in ps && b in ps && a != b;
      if (a, b) in pairs {
        assert k in ConnectorsBetween(s, a, b, includeImplied);
      } else {
        assert (b, a) in pairs;
        assert k in ConnectorsBetween(s, b, a, includeImplied);
      }
    }
  }
}
