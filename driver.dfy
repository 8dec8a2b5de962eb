/** The scenarios of index.ts: the demo's registry, what getService builds
    from it, and the counters its status lines report. */
module Driver {
  import opened DiServer
  import opened ClassServer

  /** The metadata of the demo: WareComponent (decorated and declared at
      classServer.ts:32-36) and Index (index.ts:21-25) are decorated, so their
      constructor parameter types are recorded; the two services carry none. */
  const DemoRegistry: Registry :=
    map["WareComponent" := ["WareService", "CartService"], "Index" := ["WareComponent"]]

  /** A rank for the demo: services below the component, the component below Index. */
  const DemoRank: map<ClassId, nat> :=
    map["WareService" := 0, "CartService" := 0, "WareComponent" := 1, "Index" := 2]

  /** The shape of a resolved WareComponent. */
  const WareComponentShape := Tree("WareComponent", [Tree("WareService", []), Tree("CartService", [])])

  lemma DemoRegistryIsRanked()
    ensures Ranked(DemoRegistry, DemoRank)
  {
  }

  /** Resolving Index from scratch builds WareService, CartService,
      WareComponent and Index, in that order, as
      Index(WareComponent(WareService, CartService)). */
  lemma IndexResolution()
    ensures Ranked(DemoRegistry, DemoRank)
    ensures Resolve(DemoRegistry, DemoRank, "Index", 0)
         == (Instance(3, "Index", [Instance(2, "WareComponent", [Instance(0, "WareService", []),
                                                                 Instance(1, "CartService", [])])]), 4)
  {
    DemoRegistryIsRanked();
    assert ParamTypes(DemoRegistry, "WareService") == [] by {
      assert "WareService" != "WareComponent" && "WareService" != "Index";
    }
    assert ParamTypes(DemoRegistry, "CartService") == [] by {
      assert "CartService" != "WareComponent" && "CartService" != "Index";
    }
    var services: seq<ClassId> := ["WareService", "CartService"];
    assert ParamTypes(DemoRegistry, "WareComponent") == services;
    var first := services[..1];
    assert first[..0] == [] && first[0] == "WareService";
    assert ResolveAll(DemoRegistry, DemoRank, 1, first[..0], 0) == ([], 0);
    assert Resolve(DemoRegistry, DemoRank, "WareService", 0) == (Instance(0, "WareService", []), 1);
    assert first[..|first| - 1] == first[..0];
    var r1 := ResolveAll(DemoRegistry, DemoRank, 1, first, 0);
    assert r1.0 == [Instance(0, "WareService", [])] && r1.1 == 1;
    assert Resolve(DemoRegistry, DemoRank, "CartService", 1) == (Instance(1, "CartService", []), 2);
    var args := [Instance(0, "WareService", []), Instance(1, "CartService", [])];
    assert services[..|services| - 1] == first;
    var r2 := ResolveAll(DemoRegistry, DemoRank, 1, services, 0);
    assert r2.0 == args && r2.1 == 2;
    assert Resolve(DemoRegistry, DemoRank, "WareComponent", 0) == (Instance(2, "WareComponent", args), 3);
    var index: seq<ClassId> := ["WareComponent"];
    assert ParamTypes(DemoRegistry, "Index") == index && index[..|index| - 1] == [];
    assert ResolveAll(DemoRegistry, DemoRank, 2, index[..|index| - 1], 0) == ([], 0);
    var r3 := ResolveAll(DemoRegistry, DemoRank, 2, index, 0);
    assert r3.0 == [Instance(2, "WareComponent", args)] && r3.1 == 3;
  }

  /** Wherever the heap stands, resolving WareComponent gives that shape. */
  lemma WareComponentResolution(next: nat)
    ensures Ranked(DemoRegistry, DemoRank)
    ensures Erase(Resolve(DemoRegistry, DemoRank, "WareComponent", next).0) == WareComponentShape
  {
    IndexResolution();
    ShapeIgnoresHeap(DemoRegistry, DemoRank, "WareComponent", 0, next);
    var t := Resolve(DemoRegistry, DemoRank, "WareComponent", 0).0;
    assert t == Instance(2, "WareComponent", [Instance(0, "WareService", []), Instance(1, "CartService", [])]);
    var kids := t.args;
    assert kids[..1] == [kids[0]];
    assert EraseAll(kids) == [Tree("WareService", []), Tree("CartService", [])];
  }

  /** `new WareComponent(...)` applied to a resolved WareComponent graph: fresh
      services with their initial counters. */
  method NewWareComponent(t: Instance) returns (component: WareComponent)
    requires Erase(t) == WareComponentShape
    ensures fresh(component) && fresh(component.wareService) && fresh(component.cartService)
    ensures component.State() == FreshCounters
  {
    var wareService := new WareService();
    var cartService := new CartService();
    component := new WareComponent(wareService, cartService);
  }

  /** The Index class of the driver: it holds a WareComponent and runs it. */
  class Index {
    const wareComponent: WareComponent

    constructor (wareComponent: WareComponent)
      ensures this.wareComponent == wareComponent
    {
      this.wareComponent := wareComponent;
    }

    method Run() returns (report: Counters)
      modifies wareComponent.wareService, wareComponent.cartService
      ensures wareComponent.State() == AfterAddToCart(old(wareComponent.State()))
      ensures report == wareComponent.State()
    {
      report := wareComponent.AddToCart();
    }
  }

  /** Hand-wired services and component: two addToCart calls report 9/1 and then 8/2. */
  method ManualWiring() returns (first: Counters, second: Counters)
    ensures first == Counters(9, 1) && second == Counters(8, 2)
  {
    var wareService := new WareService();
    var cartService := new CartService();
    var wareComponent := new WareComponent(wareService, cartService);
    first := wareComponent.AddToCart();
    second := wareComponent.AddToCart();
  }

  /** Injected wiring: a WareComponent and then an Index are resolved; each
      gets its own fresh services, so both status lines report 9/1. */
  method InjectedWiring() returns (viaComponent: Counters, viaIndex: Counters)
    ensures viaComponent == Counters(9, 1) && viaIndex == Counters(9, 1)
  {
    DemoRegistryIsRanked();
    var graph, free := GetService(DemoRegistry, DemoRank, "WareComponent", 0);
    WareComponentResolution(0);
    var wareComponent := NewWareComponent(graph);
    viaComponent := wareComponent.AddToCart();

    var indexGraph, _ := GetService(DemoRegistry, DemoRank, "Index", free);
    var index: seq<ClassId> := ["WareComponent"];
    assert ParamTypes(DemoRegistry, "Index") == index && index[..0] == [];
    assert ResolveAll(DemoRegistry, DemoRank, 2, index[..0], free) == ([], free);
    ArgumentsInOrder(DemoRegistry, DemoRank, "Index", free, 0);
    WareComponentResolution(free);
    var inner := NewWareComponent(indexGraph.args[0]);
    var app := new Index(inner);
    viaIndex := app.Run();
  }
}
