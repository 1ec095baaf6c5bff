/**
 * A worked scenario: `Orders` has a declared foreign key to `Customers` and
 * an implied one to `Regions`. Its one-degree diagram shows `Customers`
 * only, and reports the implied key as skipped, unless implied keys are
 * included, in which case both are drawn and nothing is skipped.
 */
module OrdersScenario {
  import opened SchemaModel
  import opened ConnectorFinder
  import opened TableRelatives
  import opened DiagramSpec
  import opened DiagramProperties

  const Orders: TableId := 0
  const Customers: TableId := 1
  const Regions: TableId := 2

  const CustomerId := Column(Customers, "id", false, false)
  const RegionId := Column(Regions, "id", false, false)
  const OrderCustomer := Column(Orders, "customer_id", false, false)
  const OrderRegion := Column(Orders, "region_id", false, false)

  /** The declared key from an order to its customer. */
  const PlacedBy := Constraint(CustomerId, OrderCustomer, false)
  /** The implied key from an order to its region. */
  const ShippedTo := Constraint(RegionId, OrderRegion, true)

  const Shop := Schema([OrderCustomer, OrderRegion, CustomerId, RegionId], {PlacedBy, ShippedTo})

  function OneDegree(includeImplied: bool): Settings
  {
    Settings(Orders, false, includeImplied, {})
  }

  lemma ShopWellFormed()
    ensures WellFormed(Shop)
  {
  }

  /** The relatives of `Orders`: `Customers`, and `Regions` too when implied keys are included. */
  lemma {:induction false} OrdersRelatives(includeImplied: bool)
    ensures Related(Shop, OneDegree(includeImplied)) == if includeImplied then {Customers, Regions} else {Customers}
  {
    ShopWellFormed();
    var f := OneDegree(includeImplied);
    forall x ensures x in Related(Shop, f) <==> x in (if includeImplied then {Customers, Regions} else {Customers}) {
      RelativesExactly(Shop, Orders, true, includeImplied, x);
      if x == Customers {
        assert Followed(Shop, Orders, true, PlacedBy) && Crosses(PlacedBy, Orders, x);
      } else if x == Regions && includeImplied {
        assert Followed(Shop, Orders, true, ShippedTo) && Crosses(ShippedTo, Orders, x);
      }
    }
  }

  /** Without implied keys the diagram has nodes for `Orders` and `Customers` only. */
  lemma DeclaredKeysNodes()
    ensures Build(Shop, OneDegree(false)).nodes.Keys == {Orders, Customers}
  {
    OrdersRelatives(false);
    OneDegreeDiagram(Shop, OneDegree(false));
  }

  /** Without implied keys the declared key is the one connector. */
  lemma {:induction false} DeclaredKeysConnectors()
    ensures Build(Shop, OneDegree(false)).connectors.Keys == {PlacedBy}
  {
    var f := OneDegree(false);
    forall k ensures k in Build(Shop, f).connectors <==> k == PlacedBy {
      ConnectorsOfDiagram(Shop, f, k);
    }
  }

  /** Without implied keys the implied key is reported as skipped. */
  lemma {:induction false} DeclaredKeysSkipped()
    ensures Build(Shop, OneDegree(false)).skipped == {ShippedTo}
  {
    var f := OneDegree(false);
    ShopWellFormed();
    OneDegreeDiagram(Shop, f);
    forall k ensures k in SkippedImplied(Shop, Orders, true, false) <==> k == ShippedTo {
      SkippedExactly(Shop, Orders, true, false, k);
    }
  }

  /** With implied keys all three tables have a node. */
  lemma ImpliedKeysNodes()
    ensures Build(Shop, OneDegree(true)).nodes.Keys == {Orders, Customers, Regions}
  {
    OrdersRelatives(true);
    OneDegreeDiagram(Shop, OneDegree(true));
  }

  /** With implied keys both keys are drawn. */
  lemma {:induction false} ImpliedKeysConnectors()
    ensures Build(Shop, OneDegree(true)).connectors.Keys == {PlacedBy, ShippedTo}
  {
    var f := OneDegree(true);
    forall k ensures k in Build(Shop, f).connectors <==> k == PlacedBy || k == ShippedTo {
      ConnectorsOfDiagram(Shop, f, k);
    }
  }

  /** With implied keys nothing is skipped. */
  lemma ImpliedKeysSkipped()
    ensures Build(Shop, OneDegree(true)).skipped == {}
  {
    ImpliedAccounting(Shop, OneDegree(true));
  }
}
